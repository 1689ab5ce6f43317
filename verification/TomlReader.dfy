/** Reading `-c mcp_servers...=...` arguments back, and the round trip with TomlOverrides. A strict
    reader refuses, as TOML v1.0.0 does, a raw control character other than tab in a basic string. */
module TomlReader {
  import opened Strings
  import opened TomlOverrides

  // ---- basic strings and arrays

  function Unescaped(c: char): Option<char>
  {
    match c
    case '"' => Some('"')
    case '\\' => Some('\\')
    case 'n' => Some('\n')
    case 'r' => Some('\r')
    case 't' => Some('\t')
    case 'b' => Some('\U{08}')
    case 'f' => Some('\U{0C}')
    case _ => None
  }

  predicate Control(c: char)
  {
    var n := c as int;
    n <= 8 || 10 <= n <= 0x1F || n == 0x7F
  }

  function Prepend(c: char, r: Option<(string, string)>): Option<(string, string)>
  {
    match r
    case None => None
    case Some((value, rest)) => Some(([c] + value, rest))
  }

  /** What follows an opening quote: the value, and what stands after the closing quote. */
  function ReadBody(strict: bool, s: string): Option<(string, string)>
    decreases s
  {
    if s == "" then None
    else if s[0] == '"' then Some(("", s[1..]))
    else if s[0] == '\\' then
      if |s| == 1 || Unescaped(s[1]).None? then None
      else Prepend(Unescaped(s[1]).value, ReadBody(strict, s[2..]))
    else if strict && Control(s[0]) then None
    else Prepend(s[0], ReadBody(strict, s[1..]))
  }

  lemma {:induction false} BodyShrinks(strict: bool, s: string)
    ensures ReadBody(strict, s).Some? ==> |ReadBody(strict, s).value.1| < |s|
    decreases s
  {
    if s != "" && s[0] != '"' {
      if s[0] == '\\' {
        if |s| > 1 { BodyShrinks(strict, s[2..]); }
      } else {
        BodyShrinks(strict, s[1..]);
      }
    }
  }

  function ReadString(strict: bool, s: string): Option<(string, string)>
  {
    if s == "" || s[0] != '"' then None else ReadBody(strict, s[1..])
  }

  function ReadWhole(strict: bool, s: string): Option<string>
  {
    match ReadString(strict, s)
    case None => None
    case Some((value, rest)) => if rest == "" then Some(value) else None
  }

  /** The elements of an array after its opening bracket, at least one. */
  function ReadItems(strict: bool, s: string): Option<seq<string>>
    decreases |s|
  {
    BodyShrinks(strict, if s == "" then s else s[1..]);
    match ReadString(strict, s)
    case None => None
    case Some((value, rest)) =>
      if rest == "]" then Some([value])
      else if rest == "" || rest[0] != ',' then None
      else
        match ReadItems(strict, rest[1..])
        case None => None
        case Some(more) => Some([value] + more)
  }

  function ReadArray(strict: bool, s: string): Option<seq<string>>
  {
    if s == "[]" then Some([]) else if s == "" || s[0] != '[' then None else ReadItems(strict, s[1..])
  }

  // ---- keys

  /** The text before and after the first c. */
  function SplitFirst(s: string, c: char): Option<(string, string)>
    decreases s
  {
    if s == "" then None
    else if s[0] == c then Some(("", s[1..]))
    else
      match SplitFirst(s[1..], c)
      case None => None
      case Some((a, b)) => Some(([s[0]] + a, b))
  }

  lemma {:induction false} SplitJoins(a: string, c: char, b: string)
    requires c !in a
    ensures SplitFirst(a + [c] + b, c) == Some((a, b))
    ensures SplitFirst(a, c) == None
  {
    if a != "" {
      assert a[0] in a && forall x :: x in a[1..] ==> x in a;
      SplitJoins(a[1..], c, b);
      assert (a + [c] + b)[1..] == a[1..] + [c] + b;
      assert [a[0]] + a[1..] == a;
    } else {
      assert (a + [c] + b)[1..] == b;
    }
  }

  /** The target of a setting; the key is a dotted path of bare keys. */
  datatype Path = CommandOf(name: string) | ArgsOf(name: string) | EnvOf(name: string, key: string)

  function ReadPath(s: string): Option<Path>
  {
    match SplitFirst(s, '.')
    case None => None
    case Some((root, s1)) =>
      if root != "mcp_servers" then None
      else
        match SplitFirst(s1, '.')
        case None => None
        case Some((name, field)) =>
          if field == "command" then Some(CommandOf(name))
          else if field == "args" then Some(ArgsOf(name))
          else
            match SplitFirst(field, '.')
            case None => None
            case Some((env, key)) => if env == "env" && '.' !in key then Some(EnvOf(name, key)) else None
  }

  // ---- the configuration read so far

  function Known(cfg: Config, name: string): Server
  {
    if name in cfg then cfg[name] else Server("", [], map[])
  }

  function Assign(strict: bool, cfg: Config, path: Path, value: string): Option<Config>
  {
    var srv := Known(cfg, path.name);
    match path
    case CommandOf(name) =>
      var v := ReadWhole(strict, value);
      if v.None? then None else Some(cfg[name := srv.(command := v.value)])
    case ArgsOf(name) =>
      var v := ReadArray(strict, value);
      if v.None? then None else Some(cfg[name := srv.(args := v.value)])
    case EnvOf(name, key) =>
      var v := ReadWhole(strict, value);
      if v.None? then None else Some(cfg[name := srv.(env := srv.env[key := v.value])])
  }

  function Apply(strict: bool, cfg: Config, setting: string): Option<Config>
  {
    match SplitFirst(setting, '=')
    case None => None
    case Some((key, value)) =>
      var path := ReadPath(key);
      if path.None? then None else Assign(strict, cfg, path.value, value)
  }

  function Read(strict: bool, args: seq<string>): Option<Config>
  {
    if args == [] then Some(map[])
    else if |args| == 1 || args[|args| - 2] != "-c" then None
    else
      var before := Read(strict, args[..|args| - 2]);
      if before.None? then None else Apply(strict, before.value, args[|args| - 1])
  }

  // ---- values come back

  /** The reader takes this value as printed. */
  predicate Fine(strict: bool, s: string)
  {
    strict ==> forall i :: 0 <= i < |s| ==> !Control(s[i]) || s[i] == '\n' || s[i] == '\r'
  }

  lemma {:induction false} BodyReads(strict: bool, s: string, rest: string)
    ensures ReadBody(strict, Body(s) + "\"" + rest) == if Fine(strict, s) then Some((s, rest)) else None
  {
    if s == "" {
      assert (Body(s) + "\"" + rest)[1..] == rest;
    } else {
      var t := s[1..];
      var tail := Body(t) + "\"" + rest;
      BodyReads(strict, t, rest);
      ReadEscaped(strict, s[0], tail);
      assert Body(s) + "\"" + rest == Escaped(s[0]) + tail;
      assert s == [s[0]] + t;
      FineStep(strict, s);
    }
  }

  lemma ReadEscaped(strict: bool, c: char, tail: string)
    ensures ReadBody(strict, Escaped(c) + tail) ==
              if |Escaped(c)| == 2 || !strict || !Control(c) then Prepend(c, ReadBody(strict, tail)) else None
  {
    var e := Escaped(c);
    assert (e + tail)[|e|..] == tail;
    if |e| == 2 { assert (e + tail)[0] == '\\' && (e + tail)[1] == e[1] && Unescaped(e[1]) == Some(c); }
  }

  lemma FineStep(strict: bool, s: string)
    requires s != ""
    ensures Fine(strict, s) <==> Fine(strict, s[..1]) && Fine(strict, s[1..])
    ensures Fine(strict, s[..1]) <==> !strict || !Control(s[0]) || |Escaped(s[0])| == 2
  {
    assert s[..1][0] == s[0];
    assert forall i :: 1 <= i < |s| ==> s[i] == s[1..][i - 1];
    assert forall i :: 0 <= i < |s[1..]| ==> s[1..][i] == s[i + 1];
  }

  lemma StringReads(strict: bool, s: string, rest: string)
    ensures ReadString(strict, TomlString(s) + rest) == if Fine(strict, s) then Some((s, rest)) else None
  {
    BodyReads(strict, s, rest);
    assert (TomlString(s) + rest)[1..] == Body(s) + "\"" + rest;
  }

  lemma WholeReads(strict: bool, s: string)
    ensures ReadWhole(strict, TomlString(s)) == if Fine(strict, s) then Some(s) else None
  {
    StringReads(strict, s, "");
    assert TomlString(s) + "" == TomlString(s);
  }

  predicate AllFine(strict: bool, items: seq<string>)
  {
    forall i :: 0 <= i < |items| ==> Fine(strict, items[i])
  }

  lemma {:induction false} ItemsRead(strict: bool, items: seq<string>)
    requires items != []
    ensures ReadItems(strict, Listed(items) + "]") == if AllFine(strict, items) then Some(items) else None
  {
    if |items| == 1 {
      StringReads(strict, items[0], "]");
      assert Listed(items) + "]" == TomlString(items[0]) + "]";
      assert items == [items[0]];
    } else {
      var more := items[1..];
      var rest := "," + (Listed(more) + "]");
      ItemsRead(strict, more);
      StringReads(strict, items[0], rest);
      assert Listed(items) + "]" == TomlString(items[0]) + rest;
      assert rest[1..] == Listed(more) + "]" && rest != "]";
      assert items == [items[0]] + more;
      assert AllFine(strict, items) <==> Fine(strict, items[0]) && AllFine(strict, more) by {
        assert forall i :: 1 <= i < |items| ==> items[i] == more[i - 1];
        assert forall i :: 0 <= i < |more| ==> more[i] == items[i + 1];
      }
    }
  }

  lemma ArrayReads(strict: bool, items: seq<string>)
    requires items != []
    ensures ReadArray(strict, TomlStringArray(items)) == if AllFine(strict, items) then Some(items) else None
  {
    ItemsRead(strict, items);
    assert TomlStringArray(items)[1..] == Listed(items) + "]";
    assert Listed(items)[0] == '"';
    assert TomlStringArray(items)[1] == '"';
  }

  // ---- settings come back

  lemma {:induction false} GoodNameHasNo(s: string, dash: bool)
    requires GoodName(s, dash)
    ensures '.' !in s && '=' !in s
  {
  }

  lemma PathReads(name: string, field: string)
    requires GoodName(name, true)
    ensures SplitFirst(Root + "." + name + "." + field, '.') == Some((Root, name + "." + field))
    ensures SplitFirst(name + "." + field, '.') == Some((name, field))
  {
    GoodNameHasNo(name, true);
    SplitJoins(name, '.', field);
    RootSplits(name + "." + field);
    Rejoin(Root + ".", name, ".", field);
  }

  lemma RootSplits(rest: string)
    ensures SplitFirst(Root + "." + rest, '.') == Some((Root, rest))
  {
    SplitJoins(Root, '.', rest);
  }

  lemma Rejoin(a: string, b: string, c: string, d: string)
    ensures a + b + c + d == a + (b + c + d)
  {
  }

  lemma SettingSplits(name: string, field: string, value: string)
    requires GoodName(name, true) && '=' !in field
    ensures SplitFirst(Root + "." + name + "." + field + "=" + value, '=') == Some((Root + "." + name + "." + field, value))
  {
    GoodNameHasNo(name, true);
    var key := Root + "." + name + "." + field;
    assert '=' !in Root && '=' !in ".";
    assert '=' !in key;
    SplitJoins(key, '=', value);
  }

  lemma CommandReads(strict: bool, cfg: Config, name: string, command: string)
    requires GoodName(name, true)
    ensures Apply(strict, cfg, CommandSetting(name, command)) ==
              if Fine(strict, command) then Some(cfg[name := Known(cfg, name).(command := command)]) else None
  {
    assert CommandSetting(name, command) == Root + "." + name + "." + "command" + "=" + TomlString(command);
    SettingSplits(name, "command", TomlString(command));
    PathReads(name, "command");
    WholeReads(strict, command);
  }

  lemma ArgsRead(strict: bool, cfg: Config, name: string, args: seq<string>)
    requires GoodName(name, true) && args != []
    ensures Apply(strict, cfg, ArgsSetting(name, args)) ==
              if AllFine(strict, args) then Some(cfg[name := Known(cfg, name).(args := args)]) else None
  {
    assert ArgsSetting(name, args) == Root + "." + name + "." + "args" + "=" + TomlStringArray(args);
    SettingSplits(name, "args", TomlStringArray(args));
    PathReads(name, "args");
    ArrayReads(strict, args);
  }

  lemma EnvReads(strict: bool, cfg: Config, name: string, key: string, value: string)
    requires GoodName(name, true) && GoodName(key, false)
    ensures Apply(strict, cfg, EnvSetting(name, key, value)) ==
              if Fine(strict, value) then Some(cfg[name := Known(cfg, name).(env := Known(cfg, name).env[key := value])]) else None
  {
    var field := "env." + key;
    GoodNameHasNo(key, false);
    assert '=' !in field;
    assert EnvSetting(name, key, value) == Root + "." + name + "." + field + "=" + TomlString(value);
    SettingSplits(name, field, TomlString(value));
    PathReads(name, field);
    assert '.' !in "env";
    SplitJoins("env", '.', key);
    assert field == "env" + ['.'] + key;
    assert field[3] == '.' && "command"[3] != '.' && "args"[3] != '.';
    WholeReads(strict, value);
  }

  // ---- the whole list comes back

  lemma ReadOneMore(strict: bool, args: seq<string>, setting: string)
    ensures Read(strict, args + ["-c", setting]) ==
              if Read(strict, args).None? then None else Apply(strict, Read(strict, args).value, setting)
  {
    var all := args + ["-c", setting];
    assert all[..|all| - 2] == args;
  }

  function EnvSoFar(env: map<string, string>, keys: seq<string>): map<string, string>
  {
    map k | k in env && k in keys :: env[k]
  }

  lemma SoFarGrows(env: map<string, string>, keys: seq<string>)
    requires keys != [] && keys[|keys| - 1] in env
    ensures EnvSoFar(env, keys[..|keys| - 1])[keys[|keys| - 1] := env[keys[|keys| - 1]]] == EnvSoFar(env, keys)
  {
    assert keys == keys[..|keys| - 1] + [keys[|keys| - 1]];
  }

  lemma LastAssignmentStays(cfg: Config, name: string, a: Server, b: Server)
    ensures cfg[name := a][name := b] == cfg[name := b]
  {
  }

  predicate EnvFine(strict: bool, env: map<string, string>, keys: seq<string>)
    requires forall k :: k in keys ==> k in env
  {
    forall i :: 0 <= i < |keys| ==> Fine(strict, env[keys[i]])
  }

  lemma Regroup(a: seq<string>, b: seq<string>, c: seq<string>)
    ensures a + (b + c) == (a + b) + c
  {
  }

  lemma EnvFineGrows(strict: bool, env: map<string, string>, keys: seq<string>)
    requires keys != [] && forall k :: k in keys ==> k in env
    ensures EnvFine(strict, env, keys) <==>
              EnvFine(strict, env, keys[..|keys| - 1]) && Fine(strict, env[keys[|keys| - 1]])
  {
  }

  lemma KeyComesBack(strict: bool, args: seq<string>, cfg: Config, name: string, srv: Server, keys: seq<string>)
    requires keys != [] && GoodName(name, true) && GoodName(keys[|keys| - 1], false) && forall k :: k in keys ==> k in srv.env
    requires var before := keys[..|keys| - 1];
             Read(strict, args) ==
               if EnvFine(strict, srv.env, before) then Some(cfg[name := srv.(env := EnvSoFar(srv.env, before))]) else None
    ensures var key := keys[|keys| - 1];
            Read(strict, args + ["-c", EnvSetting(name, key, srv.env[key])]) ==
              if EnvFine(strict, srv.env, keys) then Some(cfg[name := srv.(env := EnvSoFar(srv.env, keys))]) else None
  {
    var key := keys[|keys| - 1];
    var before := srv.(env := EnvSoFar(srv.env, keys[..|keys| - 1]));
    EnvFineGrows(strict, srv.env, keys);
    ReadOneMore(strict, args, EnvSetting(name, key, srv.env[key]));
    EnvReads(strict, cfg[name := before], name, key, srv.env[key]);
    SoFarGrows(srv.env, keys);
    LastAssignmentStays(cfg, name, before, srv.(env := EnvSoFar(srv.env, keys)));
  }

  lemma NoKeys(cfg: Config, name: string, srv: Server)
    requires name in cfg && cfg[name] == srv.(env := map[])
    ensures cfg[name := srv.(env := EnvSoFar(srv.env, []))] == cfg
  {
    assert EnvSoFar(srv.env, []) == map[];
  }

  lemma {:induction false} EnvComesBack(strict: bool, args: seq<string>, cfg: Config, name: string, srv: Server, keys: seq<string>)
    requires GoodName(name, true) && (forall k :: k in keys ==> k in srv.env) && EnvArgs(name, srv.env, keys).Ok?
    requires Read(strict, args) == Some(cfg) && name in cfg && cfg[name] == srv.(env := map[])
    ensures Read(strict, args + EnvArgs(name, srv.env, keys).value) ==
              if EnvFine(strict, srv.env, keys) then Some(cfg[name := srv.(env := EnvSoFar(srv.env, keys))]) else None
  {
    if keys == [] {
      NoKeys(cfg, name, srv);
      assert args + [] == args;
    } else {
      var n := |keys| - 1;
      var before := keys[..n];
      EnvOkExact(name, srv.env, keys);
      EnvComesBack(strict, args, cfg, name, srv, before);
      var pair := ["-c", EnvSetting(name, keys[n], srv.env[keys[n]])];
      var printed := EnvArgs(name, srv.env, before).value;
      Regroup(args, printed, pair);
      KeyComesBack(strict, args + printed, cfg, name, srv, keys);
    }
  }

  lemma {:induction false} FailureSticks(strict: bool, args: seq<string>, more: seq<string>)
    requires Read(strict, args).None? && |more| % 2 == 0
    ensures Read(strict, args + more).None?
    decreases |more|
  {
    if more == [] {
      assert args + more == args;
    } else {
      var all := args + more;
      FailureSticks(strict, args, more[..|more| - 2]);
      assert all[..|all| - 2] == args + more[..|more| - 2];
    }
  }

  ghost predicate ServerFine(strict: bool, srv: Server)
  {
    && Fine(strict, srv.command) && AllFine(strict, srv.args)
    && forall k :: k in srv.env ==> Fine(strict, srv.env[k])
  }

  lemma HeadComesBack(strict: bool, args: seq<string>, cfg: Config, name: string, srv: Server)
    requires GoodName(name, true) && Read(strict, args) == Some(cfg) && name !in cfg
    ensures Read(strict, args + Head(name, srv)) ==
              if Fine(strict, srv.command) && AllFine(strict, srv.args) then Some(cfg[name := srv.(env := map[])]) else None
  {
    var first := args + ["-c", CommandSetting(name, srv.command)];
    var blank := Server(srv.command, [], map[]);
    ReadOneMore(strict, args, CommandSetting(name, srv.command));
    CommandReads(strict, cfg, name, srv.command);
    if srv.args == [] {
      assert args + Head(name, srv) == first;
      assert srv.(env := map[]) == blank;
    } else {
      ReadOneMore(strict, first, ArgsSetting(name, srv.args));
      assert args + Head(name, srv) == first + ["-c", ArgsSetting(name, srv.args)];
      ArgsRead(strict, cfg[name := blank], name, srv.args);
      LastAssignmentStays(cfg, name, blank, srv.(env := map[]));
    }
  }

  lemma {:induction false} EnvArgsEven(name: string, env: map<string, string>, keys: seq<string>)
    requires (forall k :: k in keys ==> k in env) && EnvArgs(name, env, keys).Ok?
    ensures |EnvArgs(name, env, keys).value| % 2 == 0
  {
    if keys != [] { EnvArgsEven(name, env, keys[..|keys| - 1]); }
  }

  lemma ServerArgsEven(name: string, srv: Server, keys: seq<string>)
    requires (forall k :: k in keys ==> k in srv.env) && ServerArgsFor(name, srv, keys).Ok?
    ensures |ServerArgsFor(name, srv, keys).value| % 2 == 0
  {
    EnvArgsEven(name, srv.env, keys);
  }

  lemma ServerComesBack(strict: bool, args: seq<string>, cfg: Config, name: string, srv: Server)
    requires ServerArgs(name, srv).Ok? && Read(strict, args) == Some(cfg) && name !in cfg
    ensures Read(strict, args + ServerArgs(name, srv).value) == if ServerFine(strict, srv) then Some(cfg[name := srv]) else None
  {
    ServerOkExact(name, srv);
    SameMembers(srv.env.Keys);
    KeysComeBack(strict, args, cfg, name, srv, InOrder(srv.env.Keys));
  }

  lemma KeysComeBack(strict: bool, args: seq<string>, cfg: Config, name: string, srv: Server, keys: seq<string>)
    requires GoodName(name, true) && (forall k :: k in keys <==> k in srv.env) && ServerArgsFor(name, srv, keys).Ok?
    requires Read(strict, args) == Some(cfg) && name !in cfg
    ensures Read(strict, args + ServerArgsFor(name, srv, keys).value) ==
              if ServerFine(strict, srv) then Some(cfg[name := srv]) else None
  {
    var env := EnvArgs(name, srv.env, keys).value;
    HeadComesBack(strict, args, cfg, name, srv);
    Regroup(args, Head(name, srv), env);
    if Fine(strict, srv.command) && AllFine(strict, srv.args) {
      EnvComesBack(strict, args + Head(name, srv), cfg[name := srv.(env := map[])], name, srv, keys);
      EnvFineAll(strict, srv.env, keys);
      assert EnvSoFar(srv.env, keys) == srv.env;
      LastAssignmentStays(cfg, name, srv.(env := map[]), srv);
    } else {
      EnvArgsEven(name, srv.env, keys);
      FailureSticks(strict, args + Head(name, srv), env);
    }
  }

  lemma EnvFineAll(strict: bool, env: map<string, string>, keys: seq<string>)
    requires forall k :: k in keys <==> k in env
    ensures EnvFine(strict, env, keys) <==> forall k :: k in env ==> Fine(strict, env[k])
  {
    if EnvFine(strict, env, keys) {
      forall k | k in env ensures Fine(strict, env[k]) {
        assert k in keys;
        var i :| 0 <= i < |keys| && keys[i] == k;
      }
    }
  }

  function Part(cfg: Config, names: seq<string>): Config
  {
    map n | n in cfg && n in names :: cfg[n]
  }

  ghost predicate PartFine(strict: bool, cfg: Config, names: seq<string>)
    requires forall n :: n in names ==> n in cfg
  {
    forall i :: 0 <= i < |names| ==> ServerFine(strict, cfg[names[i]])
  }

  lemma PartGrows(cfg: Config, names: seq<string>)
    requires names != [] && names[|names| - 1] in cfg
    ensures Part(cfg, names[..|names| - 1])[names[|names| - 1] := cfg[names[|names| - 1]]] == Part(cfg, names)
  {
    assert names == names[..|names| - 1] + [names[|names| - 1]];
  }

  lemma PartFineGrows(strict: bool, cfg: Config, names: seq<string>)
    requires names != [] && forall n :: n in names ==> n in cfg
    ensures PartFine(strict, cfg, names) <==>
              PartFine(strict, cfg, names[..|names| - 1]) && ServerFine(strict, cfg[names[|names| - 1]])
  {
  }

  lemma {:induction false} ServersComeBack(strict: bool, cfg: Config, names: seq<string>)
    requires (forall n :: n in names ==> n in cfg) && (forall i, j :: 0 <= i < j < |names| ==> names[i] != names[j])
    requires ArgsFor(cfg, names).Ok?
    ensures Read(strict, ArgsFor(cfg, names).value) == if PartFine(strict, cfg, names) then Some(Part(cfg, names)) else None
  {
    if names == [] {
      assert Part(cfg, names) == map[];
    } else {
      var n := |names| - 1;
      var name, before := names[n], names[..n];
      ServersComeBack(strict, cfg, before);
      PartFineGrows(strict, cfg, names);
      var args := ArgsFor(cfg, before).value;
      if PartFine(strict, cfg, before) {
        ServerComesBack(strict, args, Part(cfg, before), name, cfg[name]);
        PartGrows(cfg, names);
      } else {
        SameMembers(cfg[name].env.Keys);
        ServerArgsEven(name, cfg[name], InOrder(cfg[name].env.Keys));
        FailureSticks(strict, args, ServerArgs(name, cfg[name]).value);
      }
    }
  }

  lemma KeysOnce(s: set<string>)
    ensures forall i, j :: 0 <= i < j < |InOrder(s)| ==> InOrder(s)[i] != InOrder(s)[j]
  {
    SortedKeys(s);
    var o := InOrder(s);
    forall i, j | 0 <= i < j < |o| ensures o[i] != o[j] {
      if o[i] == o[j] { CountedTwice(o, i, j); }
    }
  }

  lemma CountedTwice(o: seq<string>, i: nat, j: nat)
    requires i < j < |o| && o[i] == o[j]
    ensures multiset(o)[o[i]] >= 2
  {
    assert o == o[..j] + o[j..];
    assert o[i] in o[..j] && o[j] in o[j..];
  }

  /** Round trip: reading the arguments back gives the configuration, for every valid configuration
      whatever its strings contain; under the strict reading of TOML v1.0.0, if and only if no
      value holds a control character the printer leaves raw. */
  lemma RoundTrip(strict: bool, cfg: Config)
    requires ValidConfig(cfg)
    ensures Overrides(cfg).Ok?
    ensures Read(strict, Overrides(cfg).value) == Some(cfg) <==> forall n :: n in cfg ==> ServerFine(strict, cfg[n])
    ensures Read(false, Overrides(cfg).value) == Some(cfg)
  {
    PrintedExactlyWhenValid(cfg);
    SameMembers(cfg.Keys);
    KeysOnce(cfg.Keys);
    var names := InOrder(cfg.Keys);
    ServersComeBack(strict, cfg, names);
    ServersComeBack(false, cfg, names);
    assert Part(cfg, names) == cfg;
    if PartFine(strict, cfg, names) {
      forall n | n in cfg ensures ServerFine(strict, cfg[n]) {
        assert n in names;
        var i :| 0 <= i < |names| && names[i] == n;
      }
    }
    assert PartFine(false, cfg, names);
  }
}
