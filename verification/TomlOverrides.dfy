/** MCP server settings as `-c key=value` arguments (pkg/agent/codex/mcp.go:37-150), and the reader
    that undoes them with the strings and arrays of TOML v1.0.0. A string is a sequence of runes. */
module TomlOverrides {
  import opened Strings

  datatype Server = Server(command: string, args: seq<string>, env: map<string, string>)

  type Config = map<string, Server>

  datatype Error =
    | EmptyName
    | BadName(name: string, rune: char)
    | NoCommand(name: string)
    | EmptyKey(server: string)
    | BadKey(server: string, key: string, rune: char)

  datatype Result<T> = Ok(value: T) | Err(error: Error)

  // ---- printing

  function Escaped(c: char): string
  {
    match c
    case '"' => "\\\""
    case '\\' => "\\\\"
    case '\n' => "\\n"
    case '\r' => "\\r"
    case '\t' => "\\t"
    case _ => [c]
  }

  function Body(s: string): string
  {
    if s == "" then "" else Escaped(s[0]) + Body(s[1..])
  }

  function TomlString(s: string): string
  {
    "\"" + Body(s) + "\""
  }

  /** The strings separated by commas. */
  function Listed(items: seq<string>): string
  {
    if items == [] then ""
    else TomlString(items[0]) + (if |items| == 1 then "" else "," + Listed(items[1..]))
  }

  function TomlStringArray(items: seq<string>): string
  {
    "[" + Listed(items) + "]"
  }

  const Root := "mcp_servers"

  function CommandSetting(name: string, value: string): string
  {
    Root + "." + name + ".command=" + TomlString(value)
  }

  function ArgsSetting(name: string, value: seq<string>): string
  {
    Root + "." + name + ".args=" + TomlStringArray(value)
  }

  function EnvSetting(name: string, key: string, value: string): string
  {
    Root + "." + name + ".env." + key + "=" + TomlString(value)
  }

  // ---- validation

  predicate Allowed(c: char, dash: bool)
  {
    c == '_' || (dash && c == '-') || 'a' <= c <= 'z' || 'A' <= c <= 'Z' || '0' <= c <= '9'
  }

  function FirstBad(s: string, dash: bool): Option<char>
  {
    if s == "" then None
    else if Allowed(s[0], dash) then FirstBad(s[1..], dash)
    else Some(s[0])
  }

  function NameError(name: string): Option<Error>
  {
    if name == "" then Some(EmptyName)
    else var bad := FirstBad(name, true); if bad.Some? then Some(BadName(name, bad.value)) else None
  }

  function KeyError(server: string, key: string): Option<Error>
  {
    if key == "" then Some(EmptyKey(server))
    else var bad := FirstBad(key, false); if bad.Some? then Some(BadKey(server, key, bad.value)) else None
  }

  /** unicode.IsSpace. */
  predicate IsSpace(c: char)
  {
    var n := c as int;
    9 <= n <= 13 || n in {0x20, 0x85, 0xA0, 0x1680, 0x2028, 0x2029, 0x202F, 0x205F, 0x3000} || 0x2000 <= n <= 0x200A
  }

  /** strings.TrimSpace leaves nothing. */
  predicate Blank(s: string)
  {
    forall i :: 0 <= i < |s| ==> IsSpace(s[i])
  }

  // ---- the argument list for keys taken in a given order

  function EnvArgs(name: string, env: map<string, string>, keys: seq<string>): Result<seq<string>>
    requires forall k :: k in keys ==> k in env
  {
    if keys == [] then Ok([])
    else
      var n := |keys| - 1;
      var before := EnvArgs(name, env, keys[..n]);
      if before.Err? then before
      else if KeyError(name, keys[n]).Some? then Err(KeyError(name, keys[n]).value)
      else Ok(before.value + ["-c", EnvSetting(name, keys[n], env[keys[n]])])
  }

  function Head(name: string, srv: Server): seq<string>
  {
    ["-c", CommandSetting(name, srv.command)] + if |srv.args| > 0 then ["-c", ArgsSetting(name, srv.args)] else []
  }

  /** Go may list a map's keys in any order; Listing is one of them, sorted before it is used. */
  ghost function Listing(s: set<string>): (r: seq<string>)
    ensures multiset(r) == multiset(s)
    ensures forall k :: k in r <==> k in s
  {
    if s == {} then []
    else
      var x :| x in s;
      assert multiset(s) == multiset(s - {x}) + multiset{x};
      [x] + Listing(s - {x})
  }

  ghost function InOrder(s: set<string>): seq<string>
  {
    Sort(Listing(s))
  }

  lemma SortedKeys(s: set<string>)
    ensures forall k :: k in InOrder(s) <==> k in s
    ensures multiset(InOrder(s)) == multiset(s) && Sorted(InOrder(s))
  {
    SortSorts(Listing(s));
    assert forall k :: k in InOrder(s) <==> k in multiset(InOrder(s));
  }

  lemma SameMembers(s: set<string>)
    ensures forall k :: k in InOrder(s) <==> k in s
  {
    SortedKeys(s);
  }

  /** order lists every key once. */
  ghost predicate Lists(order: seq<string>, keys: set<string>)
  {
    && (forall i, j :: 0 <= i < j < |order| ==> order[i] != order[j])
    && (forall k :: k in order <==> k in keys)
  }

  lemma {:induction false} ListsCounts(order: seq<string>, keys: set<string>)
    requires Lists(order, keys)
    ensures multiset(order) == multiset(keys)
  {
    if order == [] {
      assert keys == {};
    } else {
      var n := |order| - 1;
      assert order == order[..n] + [order[n]];
      assert order[n] !in order[..n];
      ListsCounts(order[..n], keys - {order[n]});
      assert keys == (keys - {order[n]}) + {order[n]};
    }
  }

  lemma OrderForgotten(order: seq<string>, keys: set<string>)
    requires Lists(order, keys)
    ensures Sort(order) == InOrder(keys)
    ensures forall k :: k in Sort(order) <==> k in keys
  {
    ListsCounts(order, keys);
    SortedKeys(keys);
    SortIgnoresOrder(order, Listing(keys));
  }

  function ServerArgsFor(name: string, srv: Server, keys: seq<string>): Result<seq<string>>
    requires forall k :: k in keys ==> k in srv.env
  {
    if NameError(name).Some? then Err(NameError(name).value)
    else if Blank(srv.command) then Err(NoCommand(name))
    else
      var e := EnvArgs(name, srv.env, keys);
      if e.Err? then e else Ok(Head(name, srv) + e.value)
  }

  ghost function ServerArgs(name: string, srv: Server): Result<seq<string>>
  {
    SameMembers(srv.env.Keys);
    ServerArgsFor(name, srv, InOrder(srv.env.Keys))
  }

  ghost function ArgsFor(cfg: Config, names: seq<string>): Result<seq<string>>
    requires forall n :: n in names ==> n in cfg
  {
    if names == [] then Ok([])
    else
      var n := |names| - 1;
      var before := ArgsFor(cfg, names[..n]);
      if before.Err? then before
      else
        var part := ServerArgs(names[n], cfg[names[n]]);
        if part.Err? then part else Ok(before.value + part.value)
  }

  ghost function Overrides(cfg: Config): Result<seq<string>>
  {
    SameMembers(cfg.Keys);
    ArgsFor(cfg, InOrder(cfg.Keys))
  }

  // ---- the code

  method TomlStringOf(s: string) returns (r: string)
    ensures r == TomlString(s)
  {
    r := "\"";
    var i := 0;
    assert s[0..] == s;
    while i < |s|
      invariant 0 <= i <= |s| && r + Body(s[i..]) == "\"" + Body(s)
    {
      assert s[i..][1..] == s[i + 1..];
      assert (r + Escaped(s[i])) + Body(s[i + 1..]) == r + (Escaped(s[i]) + Body(s[i + 1..]));
      match s[i] {
        case '"' => r := r + "\\\"";
        case '\\' => r := r + "\\\\";
        case '\n' => r := r + "\\n";
        case '\r' => r := r + "\\r";
        case '\t' => r := r + "\\t";
        case _ => r := r + [s[i]];
      }
      i := i + 1;
    }
    assert r + "" == r;
    r := r + "\"";
  }

  /** What is still to be printed after i items. */
  function Remaining(items: seq<string>, i: nat): string
    requires i <= |items|
  {
    if i == |items| then "" else (if i == 0 then "" else ",") + Listed(items[i..])
  }

  lemma PrintsOneMore(printed: string, items: seq<string>, i: nat, next: string)
    requires i < |items| && printed + Remaining(items, i) == Listed(items)
    requires next == printed + (if i == 0 then "" else ",") + TomlString(items[i])
    ensures next + Remaining(items, i + 1) == Listed(items)
  {
    var comma, quoted, rest := if i == 0 then "" else ",", TomlString(items[i]), Remaining(items, i + 1);
    assert items[i..][1..] == items[i + 1..];
    assert Listed(items[i..]) == quoted + rest;
    Regrouped(printed, comma, quoted, rest);
  }

  lemma Regrouped(a: string, b: string, c: string, d: string)
    ensures a + (b + (c + d)) == a + b + c + d
  {
  }

  method TomlStringArrayOf(items: seq<string>) returns (r: string)
    ensures r == TomlStringArray(items)
  {
    var joined := "";
    var i := 0;
    assert items[0..] == items;
    while i < |items|
      invariant 0 <= i <= |items| && joined + Remaining(items, i) == Listed(items)
    {
      var quoted := TomlStringOf(items[i]);
      var next := joined + (if i == 0 then "" else ",") + quoted;
      PrintsOneMore(joined, items, i, next);
      joined, i := next, i + 1;
    }
    assert joined == Listed(items) by { assert joined + "" == joined; }
    r := "[" + joined + "]";
  }

  lemma {:induction false} EnvErrorSticks(name: string, env: map<string, string>, keys: seq<string>, i: nat)
    requires i <= |keys| && (forall k :: k in keys ==> k in env) && EnvArgs(name, env, keys[..i]).Err?
    ensures EnvArgs(name, env, keys) == EnvArgs(name, env, keys[..i])
  {
    if i < |keys| {
      assert keys[..|keys| - 1][..i] == keys[..i];
      EnvErrorSticks(name, env, keys[..|keys| - 1], i);
    } else {
      assert keys[..i] == keys;
    }
  }

  lemma {:induction false} ErrorSticks(cfg: Config, names: seq<string>, i: nat)
    requires i <= |names| && (forall n :: n in names ==> n in cfg) && ArgsFor(cfg, names[..i]).Err?
    ensures ArgsFor(cfg, names) == ArgsFor(cfg, names[..i])
  {
    if i < |names| {
      assert names[..|names| - 1][..i] == names[..i];
      ErrorSticks(cfg, names[..|names| - 1], i);
    } else {
      assert names[..i] == names;
    }
  }

  method ValidateServerName(name: string) returns (e: Option<Error>)
    ensures e == NameError(name)
  {
    if name == "" { return Some(EmptyName); }
    var i := 0;
    assert name[0..] == name;
    while i < |name|
      invariant 0 <= i <= |name| && FirstBad(name[i..], true) == FirstBad(name, true)
    {
      assert name[i..][1..] == name[i + 1..];
      if !Allowed(name[i], true) { return Some(BadName(name, name[i])); }
      i := i + 1;
    }
    e := None;
  }

  method ValidateEnvKey(server: string, key: string) returns (e: Option<Error>)
    ensures e == KeyError(server, key)
  {
    if key == "" { return Some(EmptyKey(server)); }
    var i := 0;
    assert key[0..] == key;
    while i < |key|
      invariant 0 <= i <= |key| && FirstBad(key[i..], false) == FirstBad(key, false)
    {
      assert key[i..][1..] == key[i + 1..];
      if !Allowed(key[i], false) { return Some(BadKey(server, key, key[i])); }
      i := i + 1;
    }
    e := None;
  }

  /** order is the order in which Go lists the keys of env. */
  method EnvOverrideArgs(name: string, env: map<string, string>, order: seq<string>) returns (r: Result<seq<string>>)
    requires Lists(order, env.Keys)
    ensures (forall k :: k in InOrder(env.Keys) ==> k in env) && r == EnvArgs(name, env, InOrder(env.Keys))
  {
    OrderForgotten(order, env.Keys);
    r := EnvInTurn(name, env, Sort(order));
  }

  lemma OneMoreKey(name: string, env: map<string, string>, keys: seq<string>, i: nat)
    requires i < |keys| && forall k :: k in keys ==> k in env
    ensures var before, e := EnvArgs(name, env, keys[..i]), KeyError(name, keys[i]);
            EnvArgs(name, env, keys[..i + 1]) ==
              if before.Err? then before
              else if e.Some? then Err(e.value)
              else Ok(before.value + ["-c", EnvSetting(name, keys[i], env[keys[i]])])
  {
    assert keys[..i + 1][..i] == keys[..i];
  }

  method EnvInTurn(name: string, env: map<string, string>, keys: seq<string>) returns (r: Result<seq<string>>)
    requires forall k :: k in keys ==> k in env
    ensures r == EnvArgs(name, env, keys)
  {
    var args := [];
    var i := 0;
    while i < |keys|
      invariant 0 <= i <= |keys| && EnvArgs(name, env, keys[..i]) == Ok(args)
    {
      OneMoreKey(name, env, keys, i);
      var k := keys[i];
      var e := ValidateEnvKey(name, k);
      if e.Some? {
        EnvErrorSticks(name, env, keys, i + 1);
        return Err(e.value);
      }
      var quoted := TomlStringOf(env[k]);
      args := args + ["-c", Root + "." + name + ".env." + k + "=" + quoted];
      i := i + 1;
    }
    assert keys[..i] == keys;
    r := Ok(args);
  }

  /** Whatever orders Go lists the maps in, the result is a function of the configuration alone. */
  method McpOverrideArgs(cfg: Config, order: seq<string>, envOrder: map<string, seq<string>>) returns (r: Result<seq<string>>)
    requires Lists(order, cfg.Keys)
    requires forall n :: n in cfg ==> n in envOrder && Lists(envOrder[n], cfg[n].env.Keys)
    ensures r == Overrides(cfg)
  {
    OrderForgotten(order, cfg.Keys);
    r := ServersInTurn(cfg, Sort(order), envOrder);
  }

  lemma OneMoreServer(cfg: Config, names: seq<string>, i: nat)
    requires i < |names| && forall n :: n in names ==> n in cfg
    ensures var before, part := ArgsFor(cfg, names[..i]), ServerArgs(names[i], cfg[names[i]]);
            ArgsFor(cfg, names[..i + 1]) ==
              if before.Err? then before else if part.Err? then part else Ok(before.value + part.value)
  {
    assert names[..i + 1][..i] == names[..i];
  }

  method ServersInTurn(cfg: Config, names: seq<string>, envOrder: map<string, seq<string>>) returns (r: Result<seq<string>>)
    requires forall n :: n in names ==> n in cfg
    requires forall n :: n in cfg ==> n in envOrder && Lists(envOrder[n], cfg[n].env.Keys)
    ensures r == ArgsFor(cfg, names)
  {
    var args := [];
    var i := 0;
    while i < |names|
      invariant 0 <= i <= |names| && ArgsFor(cfg, names[..i]) == Ok(args)
    {
      OneMoreServer(cfg, names, i);
      var part := OneServer(names[i], cfg[names[i]], envOrder[names[i]]);
      if part.Err? {
        ErrorSticks(cfg, names, i + 1);
        return part;
      }
      args := args + part.value;
      i := i + 1;
    }
    assert names[..i] == names;
    r := Ok(args);
  }

  /** The body of the loop over the servers. */
  method OneServer(name: string, srv: Server, order: seq<string>) returns (r: Result<seq<string>>)
    requires Lists(order, srv.env.Keys)
    ensures r == ServerArgs(name, srv)
  {
    var e := ValidateServerName(name);
    if e.Some? { return Err(e.value); }
    if Blank(srv.command) { return Err(NoCommand(name)); }
    var command := TomlStringOf(srv.command);
    var args := ["-c", Root + "." + name + ".command=" + command];
    if |srv.args| > 0 {
      var list := TomlStringArrayOf(srv.args);
      args := args + ["-c", Root + "." + name + ".args=" + list];
    }
    assert args == Head(name, srv);
    var env := EnvOverrideArgs(name, srv.env, order);
    if env.Err? { return env; }
    r := Ok(args + env.value);
  }

  // ---- exactly the valid configurations are printed

  /** A non-empty string of allowed characters. */
  predicate GoodName(s: string, dash: bool)
  {
    s != "" && forall i :: 0 <= i < |s| ==> Allowed(s[i], dash)
  }

  lemma CharAt(letters: string, from: char, c: char)
    requires |letters| <= 26 && (from as int) < 100 && forall i :: 0 <= i < |letters| ==> letters[i] as int == from as int + i
    ensures c in letters <==> from as int <= c as int < from as int + |letters|
  {
    if from as int <= c as int < from as int + |letters| { assert letters[c as int - from as int] == c; }
  }

  /** The allowed characters are the ASCII letters and digits, the underscore and, in server names, the
      dash. */
  lemma AllowedExactly(c: char, dash: bool)
    ensures Allowed(c, dash) <==>
              c in "ABCDEFGHIJKLMNOPQRSTUVWXYZ" || c in "abcdefghijklmnopqrstuvwxyz" || c in "0123456789"
              || c == '_' || (dash && c == '-')
  {
    CharAt("ABCDEFGHIJKLMNOPQRSTUVWXYZ", 'A', c);
    CharAt("abcdefghijklmnopqrstuvwxyz", 'a', c);
    CharAt("0123456789", '0', c);
  }

  ghost predicate ValidServer(name: string, srv: Server)
  {
    GoodName(name, true) && !Blank(srv.command) && forall k :: k in srv.env ==> GoodName(k, false)
  }

  ghost predicate ValidConfig(cfg: Config)
  {
    forall n :: n in cfg ==> ValidServer(n, cfg[n])
  }

  /** The first character that is not allowed, if there is one. */
  lemma {:induction false} FirstBadExact(s: string, dash: bool)
    ensures FirstBad(s, dash).None? <==> forall i :: 0 <= i < |s| ==> Allowed(s[i], dash)
    ensures forall i :: 0 <= i < |s| && !Allowed(s[i], dash) && (forall j :: 0 <= j < i ==> Allowed(s[j], dash))
              ==> FirstBad(s, dash) == Some(s[i])
  {
    if s != "" && Allowed(s[0], dash) {
      FirstBadExact(s[1..], dash);
      assert forall i :: 1 <= i < |s| ==> s[i] == s[1..][i - 1];
      assert forall i :: 0 <= i < |s[1..]| ==> s[1..][i] == s[i + 1];
    }
  }

  /** The errors for a server name and for a key: empty, or the first character not allowed. */
  lemma NameErrorExact(name: string)
    ensures NameError(name).None? <==> GoodName(name, true)
    ensures name == "" ==> NameError(name) == Some(EmptyName)
    ensures forall i :: 0 <= i < |name| && !Allowed(name[i], true) && (forall j :: 0 <= j < i ==> Allowed(name[j], true))
              ==> NameError(name) == Some(BadName(name, name[i]))
  {
    FirstBadExact(name, true);
  }

  lemma KeyErrorExact(server: string, key: string)
    ensures KeyError(server, key).None? <==> GoodName(key, false)
    ensures key == "" ==> KeyError(server, key) == Some(EmptyKey(server))
    ensures forall i :: 0 <= i < |key| && !Allowed(key[i], false) && (forall j :: 0 <= j < i ==> Allowed(key[j], false))
              ==> KeyError(server, key) == Some(BadKey(server, key, key[i]))
  {
    FirstBadExact(key, false);
  }

  lemma {:induction false} EnvOkExact(name: string, env: map<string, string>, keys: seq<string>)
    requires forall k :: k in keys ==> k in env
    ensures EnvArgs(name, env, keys).Ok? <==> forall k :: k in keys ==> GoodName(k, false)
  {
    if keys != [] {
      var n := |keys| - 1;
      EnvOkExact(name, env, keys[..n]);
      KeyErrorExact(name, keys[n]);
      forall k ensures k in keys <==> k in keys[..n] || k == keys[n] {
        assert keys == keys[..n] + [keys[n]];
      }
    }
  }

  lemma ServerOkExact(name: string, srv: Server)
    ensures ServerArgs(name, srv).Ok? <==> ValidServer(name, srv)
  {
    SameMembers(srv.env.Keys);
    NameErrorExact(name);
    EnvOkExact(name, srv.env, InOrder(srv.env.Keys));
  }

  ghost predicate AllValid(cfg: Config, names: seq<string>)
    requires forall n :: n in names ==> n in cfg
  {
    forall i :: 0 <= i < |names| ==> ValidServer(names[i], cfg[names[i]])
  }

  lemma OneMoreValid(cfg: Config, names: seq<string>)
    requires names != [] && forall n :: n in names ==> n in cfg
    ensures var n := |names| - 1; AllValid(cfg, names) <==> AllValid(cfg, names[..n]) && ValidServer(names[n], cfg[names[n]])
  {
  }

  lemma {:induction false} ArgsOkExact(cfg: Config, names: seq<string>)
    requires forall n :: n in names ==> n in cfg
    ensures ArgsFor(cfg, names).Ok? <==> AllValid(cfg, names)
  {
    if names != [] {
      var n := |names| - 1;
      ArgsOkExact(cfg, names[..n]);
      ServerOkExact(names[n], cfg[names[n]]);
      OneMoreValid(cfg, names);
    }
  }

  /** An error is returned exactly for the configurations with a bad name, key or command. */
  lemma PrintedExactlyWhenValid(cfg: Config)
    ensures Overrides(cfg).Ok? <==> ValidConfig(cfg)
  {
    SameMembers(cfg.Keys);
    ArgsOkExact(cfg, InOrder(cfg.Keys));
  }

  // ---- which error, and what is printed in which order

  /** The first key that is not valid decides the error. */
  lemma {:induction false} EnvErrorIsFirst(name: string, env: map<string, string>, keys: seq<string>, i: nat)
    requires i < |keys| && (forall k :: k in keys ==> k in env)
    requires !GoodName(keys[i], false) && forall j :: 0 <= j < i ==> GoodName(keys[j], false)
    ensures KeyError(name, keys[i]).Some? && EnvArgs(name, env, keys) == Err(KeyError(name, keys[i]).value)
  {
    KeyErrorExact(name, keys[i]);
    EnvOkExact(name, env, keys[..i]);
    OneMoreKey(name, env, keys, i);
    EnvErrorSticks(name, env, keys, i + 1);
  }

  ghost predicate LeastBad(keys: set<string>, k: string)
  {
    k in keys && !GoodName(k, false) && forall j :: j in keys && Less(j, k) ==> GoodName(j, false)
  }

  /** A bad name is reported before a blank command, and that before a bad key; of the keys the least
      bad one in string order. */
  lemma ServerErrorIsFirst(name: string, srv: Server, k: string)
    ensures !GoodName(name, true) ==> ServerArgs(name, srv).Err? && Some(ServerArgs(name, srv).error) == NameError(name)
    ensures GoodName(name, true) && Blank(srv.command) ==> ServerArgs(name, srv) == Err(NoCommand(name))
    ensures GoodName(name, true) && !Blank(srv.command) && LeastBad(srv.env.Keys, k) ==>
              ServerArgs(name, srv).Err? && Some(ServerArgs(name, srv).error) == KeyError(name, k)
  {
    SortedKeys(srv.env.Keys);
    NameErrorExact(name);
    if GoodName(name, true) && !Blank(srv.command) && LeastBad(srv.env.Keys, k) {
      var i := FirstAt(InOrder(srv.env.Keys), k);
      EnvErrorIsFirst(name, srv.env, InOrder(srv.env.Keys), i);
    }
  }

  /** Everything before a member of a sorted list is less than it. */
  lemma {:induction false} FirstAt(keys: seq<string>, k: string) returns (i: nat)
    requires Sorted(keys) && k in keys
    ensures i < |keys| && keys[i] == k && forall j :: 0 <= j < i ==> Less(keys[j], k)
  {
    if keys[0] == k {
      i := 0;
    } else {
      assert keys == [keys[0]] + keys[1..];
      i := FirstAt(keys[1..], k);
      i := i + 1;
      assert forall j :: 1 <= j < i ==> keys[j] == keys[1..][j - 1];
      LessTrichotomy(keys[0], k);
    }
  }

  lemma ServersErrorIsFirst(cfg: Config, names: seq<string>, i: nat)
    requires i < |names| && forall n :: n in names ==> n in cfg
    requires !ValidServer(names[i], cfg[names[i]]) && forall j :: 0 <= j < i ==> ValidServer(names[j], cfg[names[j]])
    ensures ServerArgs(names[i], cfg[names[i]]).Err? && ArgsFor(cfg, names) == ServerArgs(names[i], cfg[names[i]])
  {
    ServerOkExact(names[i], cfg[names[i]]);
    ArgsOkExact(cfg, names[..i]);
    OneMoreServer(cfg, names, i);
    ErrorSticks(cfg, names, i + 1);
  }

  /** Of the servers that cannot be printed the least in string order decides the error. */
  lemma ErrorIsFirst(cfg: Config, n: string)
    requires n in cfg && !ValidServer(n, cfg[n])
    requires forall m :: m in cfg && Less(m, n) ==> ValidServer(m, cfg[m])
    ensures Overrides(cfg).Err? && Overrides(cfg) == ServerArgs(n, cfg[n])
  {
    SortedKeys(cfg.Keys);
    var names := InOrder(cfg.Keys);
    var i := FirstAt(names, n);
    forall j | 0 <= j < i ensures ValidServer(names[j], cfg[names[j]]) { assert names[j] in names && Less(names[j], n); }
    ServersErrorIsFirst(cfg, names, i);
  }

  /** What a valid server prints: its command, its arguments if it has any, its environment key by key. */
  lemma ServerPrints(name: string, srv: Server)
    requires ValidServer(name, srv)
    ensures (forall k :: k in InOrder(srv.env.Keys) ==> k in srv.env) && EnvArgs(name, srv.env, InOrder(srv.env.Keys)).Ok?
    ensures ServerArgs(name, srv) ==
              Ok(["-c", "mcp_servers." + name + ".command=" + TomlString(srv.command)]
                 + (if srv.args == [] then [] else ["-c", "mcp_servers." + name + ".args=" + TomlStringArray(srv.args)])
                 + EnvArgs(name, srv.env, InOrder(srv.env.Keys)).value)
  {
    SameMembers(srv.env.Keys);
    ServerOkExact(name, srv);
    assert Root + "." == "mcp_servers.";
    assert Head(name, srv) + [] == Head(name, srv);
  }

  /** The keys print in the order they are taken in, one after the other. */
  lemma {:induction false} EnvConcatenates(name: string, env: map<string, string>, a: seq<string>, b: seq<string>)
    requires forall k :: k in a + b ==> k in env && GoodName(k, false)
    ensures EnvArgs(name, env, a).Ok? && EnvArgs(name, env, b).Ok?
    ensures EnvArgs(name, env, a + b) == Ok(EnvArgs(name, env, a).value + EnvArgs(name, env, b).value)
  {
    assert forall k :: k in a || k in b ==> k in a + b;
    EnvOkExact(name, env, a);
    EnvOkExact(name, env, b);
    if b == [] {
      assert a + b == a && EnvArgs(name, env, a).value + [] == EnvArgs(name, env, a).value;
    } else {
      var n := |b| - 1;
      assert (a + b)[..|a + b| - 1] == a + b[..n] && (a + b)[|a + b| - 1] == b[n];
      EnvConcatenates(name, env, a, b[..n]);
      KeyErrorExact(name, b[n]);
      Associates(EnvArgs(name, env, a).value, EnvArgs(name, env, b[..n]).value, ["-c", EnvSetting(name, b[n], env[b[n]])]);
    }
  }

  lemma Associates<T>(a: seq<T>, b: seq<T>, c: seq<T>)
    ensures (a + b) + c == a + (b + c)
  {
  }

  lemma EnvPrintsOne(name: string, env: map<string, string>, k: string)
    requires k in env && GoodName(k, false)
    ensures EnvArgs(name, env, [k]) == Ok(["-c", "mcp_servers." + name + ".env." + k + "=" + TomlString(env[k])])
  {
    KeyErrorExact(name, k);
    assert Root + "." == "mcp_servers.";
    assert [k][..0] == [] && EnvArgs(name, env, []) == Ok([]);
    assert EnvSetting(name, k, env[k]) == "mcp_servers." + name + ".env." + k + "=" + TomlString(env[k]);
    assert [] + ["-c", EnvSetting(name, k, env[k])] == ["-c", EnvSetting(name, k, env[k])];
  }

  /** So do the servers. */
  lemma {:induction false} ServersConcatenate(cfg: Config, a: seq<string>, b: seq<string>)
    requires forall n :: n in a + b ==> n in cfg && ValidServer(n, cfg[n])
    ensures (forall n :: n in a || n in b ==> n in cfg) && ArgsFor(cfg, a).Ok? && ArgsFor(cfg, b).Ok?
    ensures ArgsFor(cfg, a + b) == Ok(ArgsFor(cfg, a).value + ArgsFor(cfg, b).value)
  {
    assert forall n :: n in a || n in b ==> n in a + b;
    ArgsOkExact(cfg, a);
    ArgsOkExact(cfg, b);
    if b == [] {
      assert a + b == a && ArgsFor(cfg, a).value + [] == ArgsFor(cfg, a).value;
    } else {
      var n := |b| - 1;
      assert (a + b)[..|a + b| - 1] == a + b[..n] && (a + b)[|a + b| - 1] == b[n];
      ServersConcatenate(cfg, a, b[..n]);
      ServerOkExact(b[n], cfg[b[n]]);
      Associates(ArgsFor(cfg, a).value, ArgsFor(cfg, b[..n]).value, ServerArgs(b[n], cfg[b[n]]).value);
    }
  }

  /** Escaping looks at one character at a time. */
  lemma {:induction false} BodyAppends(a: string, b: string)
    ensures Body(a + b) == Body(a) + Body(b)
  {
    if a == "" {
      assert a + b == b;
    } else {
      BodyAppends(a[1..], b);
      assert (a + b)[1..] == a[1..] + b && (a + b)[0] == a[0];
      Associates(Escaped(a[0]), Body(a[1..]), Body(b));
    }
  }

  /** It puts a backslash before five characters, three of them as letters, and leaves every other one
      as it is. */
  lemma EscapesExactly(c: char)
    ensures Body("\"") == "\\\"" && Body("\\") == "\\\\"
    ensures Body("\n") == "\\n" && Body("\r") == "\\r" && Body("\t") == "\\t"
    ensures c !in "\"\\\n\r\t" ==> Body([c]) == [c]
  {
    assert [c][1..] == "";
  }

  /** Unicode's White_Space characters. */
  lemma SpacesAre(c: char)
    ensures IsSpace(c) <==> c as int in {
      0x09, 0x0A, 0x0B, 0x0C, 0x0D, 0x20, 0x85, 0xA0, 0x1680, 0x2000, 0x2001, 0x2002, 0x2003, 0x2004, 0x2005,
      0x2006, 0x2007, 0x2008, 0x2009, 0x200A, 0x2028, 0x2029, 0x202F, 0x205F, 0x3000}
  {
  }
}
