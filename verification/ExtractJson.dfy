/** Finding the JSON object in an agent's output (pkg/agent/codex/worker.go:611-652) against the
    JSON grammar of RFC 8259. Strings are Go's byte strings. */
module ExtractJson {
  import opened Strings

  // ---- JSON texts, with their white space

  datatype Item = Plain(c: char) | Escape(c: char)

  /** A token is a number or one of the literal names. */
  datatype Value =
    | Str(items: seq<Item>)
    | Token(text: string)
    | Arr(lead: string, elems: Elems)
    | Obj(lead: string, members: Members)

  datatype Elems = NoElems | Elems(pre: string, value: Value, post: string, rest: Elems)

  datatype Members =
    | NoMembers
    | Members(pre: string, key: seq<Item>, beforeColon: string, afterColon: string, value: Value, post: string, rest: Members)

  predicate White(s: string)
  {
    forall c :: c in s ==> c in " \t\n\r"
  }

  predicate TokenText(s: string)
  {
    s in {"true", "false", "null"} || (s != "" && forall c :: c in s ==> c in "0123456789+-.eE")
  }

  predicate ItemsOk(items: seq<Item>)
  {
    forall i :: 0 <= i < |items| && items[i].Plain? ==> items[i].c != '"' && items[i].c != '\\'
  }

  predicate ValueOk(v: Value)
  {
    match v
    case Str(items) => ItemsOk(items)
    case Token(text) => TokenText(text)
    case Arr(lead, elems) => White(lead) && ElemsOk(elems)
    case Obj(lead, members) => White(lead) && MembersOk(members)
  }

  predicate ElemsOk(e: Elems)
  {
    e.Elems? ==> White(e.pre) && ValueOk(e.value) && White(e.post) && ElemsOk(e.rest)
  }

  predicate MembersOk(m: Members)
  {
    m.Members? ==>
      White(m.pre) && ItemsOk(m.key) && White(m.beforeColon) && White(m.afterColon) && ValueOk(m.value)
      && White(m.post) && MembersOk(m.rest)
  }

  function PrintItems(items: seq<Item>): string
  {
    if items == [] then ""
    else (match items[0] case Plain(c) => [c] case Escape(c) => ['\\', c]) + PrintItems(items[1..])
  }

  function Quoted(items: seq<Item>): string
  {
    "\"" + PrintItems(items) + "\""
  }

  function Print(v: Value): string
  {
    match v
    case Str(items) => Quoted(items)
    case Token(text) => text
    case Arr(lead, elems) => "[" + lead + PrintElems(elems) + "]"
    case Obj(lead, members) => "{" + Inside(lead, members) + "}"
  }

  function Inside(lead: string, members: Members): string
    decreases members, 1
  {
    lead + PrintMembers(members)
  }

  function PrintElems(e: Elems): string
  {
    if e.NoElems? then ""
    else e.pre + Print(e.value) + e.post + Comma(e.rest.Elems?) + PrintElems(e.rest)
  }

  function PrintMembers(m: Members): string
    decreases m, 0
  {
    if m.NoMembers? then ""
    else m.pre + Quoted(m.key) + m.beforeColon + ":" + m.afterColon + Print(m.value) + m.post
         + Comma(m.rest.Members?) + PrintMembers(m.rest)
  }

  function Comma(more: bool): string
  {
    if more then "," else ""
  }

  // ---- the scanner

  datatype Mode = Mode(depth: nat, inString: bool, escaped: bool)

  const Outside := Mode(0, false, false)

  /** One character; None when it closes the outermost brace. */
  function Next(m: Mode, ch: char): Option<Mode>
  {
    if m.escaped then Some(m.(escaped := false))
    else if ch == '\\' && m.inString then Some(m.(escaped := true))
    else if ch == '"' then Some(m.(inString := !m.inString))
    else if m.inString then Some(m)
    else if ch == '{' then Some(m.(depth := m.depth + 1))
    else if ch == '}' && m.depth == 1 then None
    else if ch == '}' && m.depth > 1 then Some(m.(depth := m.depth - 1))
    else Some(m)
  }

  /** Where the next object would start. */
  function Opens(m: Mode, ch: char, i: nat, start: int): int
  {
    if !m.escaped && !m.inString && ch == '{' && m.depth == 0 then i else start
  }

  function Scan(s: string, i: nat, start: int, m: Mode): Option<(int, nat)>
    requires i <= |s|
    decreases |s| - i
  {
    if i == |s| then None
    else
      var m' := Next(m, s[i]);
      if m'.None? then Some((start, i + 1)) else Scan(s, i + 1, Opens(m, s[i], i, start), m'.value)
  }

  lemma {:induction false} ScanInRange(s: string, i: nat, start: int, m: Mode)
    requires i <= |s| && -1 <= start < i && (m.depth > 0 ==> start >= 0)
    ensures var r := Scan(s, i, start, m); r.Some? ==> 0 <= r.value.0 < r.value.1 <= |s|
    decreases |s| - i
  {
    if i < |s| {
      var m' := Next(m, s[i]);
      if m'.Some? { ScanInRange(s, i + 1, Opens(m, s[i], i, start), m'.value); }
    }
  }

  function Extract(s: string): string
  {
    ScanInRange(s, 0, -1, Outside);
    var r := Scan(s, 0, -1, Outside);
    if r.None? then "" else s[r.value.0..r.value.1]
  }

  method ExtractJSON(s: string) returns (r: string)
    ensures r == Extract(s)
  {
    var start := -1;
    var depth: nat := 0;
    var inString, escaped := false, false;
    var i := 0;
    ScanInRange(s, 0, -1, Outside);
    while i < |s|
      invariant 0 <= i <= |s| && -1 <= start < i && (depth > 0 ==> start >= 0)
      invariant Scan(s, i, start, Mode(depth, inString, escaped)) == Scan(s, 0, -1, Outside)
    {
      var ch := s[i];
      i := i + 1;
      if escaped {
        escaped := false;
      } else if ch == '\\' && inString {
        escaped := true;
      } else if ch == '"' {
        inString := !inString;
      } else if !inString {
        if ch == '{' {
          if depth == 0 { start := i - 1; }
          depth := depth + 1;
        } else if ch == '}' && depth != 0 {
          depth := depth - 1;
          if depth == 0 && start != -1 { return s[start..i]; }
        }
      }
    }
    r := "";
  }

  // ---- what a stretch of text does to the mode

  function Run(m: Mode, text: string): Option<Mode>
    decreases text
  {
    if text == "" then Some(m)
    else
      var m' := Next(m, text[0]);
      if m'.None? then None else Run(m'.value, text[1..])
  }

  lemma {:induction false} RunAppends(m: Mode, a: string, b: string)
    ensures Run(m, a + b) == if Run(m, a).None? then None else Run(Run(m, a).value, b)
    decreases a
  {
    if a == "" {
      assert a + b == b;
    } else {
      assert (a + b)[1..] == a[1..] + b;
      var m' := Next(m, a[0]);
      if m'.Some? { RunAppends(m'.value, a[1..], b); }
    }
  }

  predicate Quiet(text: string)
  {
    forall c :: c in text ==> c != '"' && c != '{' && c != '}'
  }

  lemma {:induction false} RunQuiet(m: Mode, text: string)
    requires Quiet(text) && !m.inString && !m.escaped
    ensures Run(m, text) == Some(m)
  {
    if text != "" {
      assert text[0] in text && forall c :: c in text[1..] ==> c in text;
      RunQuiet(m, text[1..]);
    }
  }

  lemma TokenIsQuiet(text: string)
    requires TokenText(text)
    ensures Quiet(text)
  {
  }

  lemma {:induction false} RunItems(m: Mode, items: seq<Item>)
    requires ItemsOk(items) && m.inString && !m.escaped
    ensures Run(m, PrintItems(items)) == Some(m)
  {
    if items != [] {
      var head := match items[0] case Plain(c) => [c] case Escape(c) => ['\\', c];
      assert ItemsOk(items[1..]);
      RunItems(m, items[1..]);
      if items[0].Escape? { assert Run(m, head) == Run(m.(escaped := true), [items[0].c]); }
      assert Run(m, head) == Some(m);
      RunAppends(m, head, PrintItems(items[1..]));
    }
  }

  lemma RunQuoted(m: Mode, items: seq<Item>)
    requires ItemsOk(items) && !m.inString && !m.escaped
    ensures Run(m, Quoted(items)) == Some(m)
  {
    var inner := m.(inString := true);
    RunItems(inner, items);
    RunAppends(inner, PrintItems(items), "\"");
    assert Quoted(items)[1..] == PrintItems(items) + "\"";
  }

  /** Two stretches that leave the mode alone leave it alone together. */
  lemma RunBoth(m: Mode, a: string, b: string)
    requires Run(m, a) == Some(m) && Run(m, b) == Some(m)
    ensures Run(m, a + b) == Some(m)
  {
    RunAppends(m, a, b);
  }

  predicate Within(m: Mode)
  {
    m.depth > 0 && !m.inString && !m.escaped
  }

  /** Inside an object, a whole value leaves the mode as it was. */
  lemma {:induction false} RunValue(m: Mode, v: Value)
    requires Within(m) && ValueOk(v)
    ensures Run(m, Print(v)) == Some(m)
    decreases v
  {
    match v
    case Str(items) => RunQuoted(m, items);
    case Token(text) =>
      TokenIsQuiet(text);
      RunQuiet(m, text);
    case Arr(lead, elems) =>
      RunElems(m, elems);
      RunBrackets(m, lead, PrintElems(elems));
    case Obj(lead, members) =>
      RunInside(m.(depth := m.depth + 1), lead, members);
      RunBraces(m, Inside(lead, members));
  }

  lemma RunBrackets(m: Mode, lead: string, inner: string)
    requires Within(m) && White(lead) && Run(m, inner) == Some(m)
    ensures Run(m, "[" + lead + inner + "]") == Some(m)
  {
    RunQuiet(m, "[");
    RunQuiet(m, lead);
    RunQuiet(m, "]");
    RunBoth(m, "[", lead);
    RunBoth(m, "[" + lead, inner);
    RunBoth(m, "[" + lead + inner, "]");
  }

  lemma RunBraces(m: Mode, inner: string)
    requires Within(m) && Run(m.(depth := m.depth + 1), inner) == Some(m.(depth := m.depth + 1))
    ensures Run(m, "{" + inner + "}") == Some(m)
  {
    var deeper := m.(depth := m.depth + 1);
    RunAppends(deeper, inner, "}");
    assert ("{" + inner + "}")[1..] == inner + "}";
    assert Run(deeper, "}") == Run(m, "");
  }

  lemma {:induction false} RunInside(m: Mode, lead: string, members: Members)
    requires Within(m) && White(lead) && MembersOk(members)
    ensures Run(m, Inside(lead, members)) == Some(m)
    decreases members, 1
  {
    RunQuiet(m, lead);
    RunMembers(m, members);
    RunBoth(m, lead, PrintMembers(members));
  }

  lemma {:induction false} RunElems(m: Mode, e: Elems)
    requires Within(m) && ElemsOk(e)
    ensures Run(m, PrintElems(e)) == Some(m)
    decreases e
  {
    if e.Elems? {
      var comma := Comma(e.rest.Elems?);
      RunQuiet(m, e.pre);
      RunValue(m, e.value);
      RunQuiet(m, e.post);
      RunQuiet(m, comma);
      RunElems(m, e.rest);
      RunBoth(m, e.pre, Print(e.value));
      RunBoth(m, e.pre + Print(e.value), e.post);
      RunBoth(m, e.pre + Print(e.value) + e.post, comma);
      RunBoth(m, e.pre + Print(e.value) + e.post + comma, PrintElems(e.rest));
    }
  }

  lemma {:induction false} RunMembers(m: Mode, ms: Members)
    requires Within(m) && MembersOk(ms)
    ensures Run(m, PrintMembers(ms)) == Some(m)
    decreases ms, 0
  {
    if ms.Members? {
      var comma := Comma(ms.rest.Members?);
      RunQuiet(m, ms.pre);
      RunQuoted(m, ms.key);
      RunBoth(m, ms.pre, Quoted(ms.key));
      var a := ms.pre + Quoted(ms.key);
      RunQuiet(m, ms.beforeColon);
      RunBoth(m, a, ms.beforeColon);
      RunQuiet(m, ":");
      RunBoth(m, a + ms.beforeColon, ":");
      var b := a + ms.beforeColon + ":";
      RunQuiet(m, ms.afterColon);
      RunBoth(m, b, ms.afterColon);
      RunValue(m, ms.value);
      RunBoth(m, b + ms.afterColon, Print(ms.value));
      var c := b + ms.afterColon + Print(ms.value);
      RunQuiet(m, ms.post);
      RunBoth(m, c, ms.post);
      RunQuiet(m, comma);
      RunBoth(m, c + ms.post, comma);
      RunMembers(m, ms.rest);
      RunBoth(m, c + ms.post + comma, PrintMembers(ms.rest));
    }
  }

  // ---- from modes back to the scan

  /** Inside an object the scan moves over such a stretch and keeps its start. */
  lemma {:induction false} ScanMoves(s: string, i: nat, text: string, start: int, m: Mode)
    requires i + |text| <= |s| && s[i..i + |text|] == text && Run(m, text).Some?
    requires m.depth > 0 || Run(m, text).value.depth == 0
    ensures Scan(s, i, start, m) == Scan(s, i + |text|, start, Run(m, text).value)
    decreases |text|
  {
    if text != "" {
      assert s[i] == text[0];
      var m' := Next(m, text[0]).value;
      assert s[i + 1..i + 1 + |text[1..]|] == text[1..];
      StaysDeep(m', text[1..]);
      ScanMoves(s, i + 1, text[1..], start, m');
    }
  }

  /** Without closing an object the depth never comes back to zero. */
  lemma {:induction false} StaysDeep(m: Mode, text: string)
    requires Run(m, text).Some?
    ensures m.depth > 0 ==> Run(m, text).value.depth > 0
    ensures (m.escaped ==> m.inString) ==> Run(m, text).value.escaped ==> Run(m, text).value.inString
    decreases text
  {
    if text != "" { StaysDeep(Next(m, text[0]).value, text[1..]); }
  }

  /** What is found in a prefix is found whatever follows. */
  lemma {:induction false} ScanIsLocal(s: string, more: string, i: nat, start: int, m: Mode)
    requires i <= |s|
    ensures Scan(s, i, start, m).Some? ==> Scan(s + more, i, start, m) == Scan(s, i, start, m)
    ensures Scan(s, i, start, m).None? <==> Run(m, s[i..]).Some?
    decreases |s| - i
  {
    if i < |s| {
      assert s[i..][1..] == s[i + 1..];
      var m' := Next(m, s[i]);
      if m'.Some? { ScanIsLocal(s, more, i + 1, Opens(m, s[i], i, start), m'.value); }
    }
  }

  /** After a prefix that leaves the scanner as it started, the object that follows is returned
      whole and nothing of the text around it. */
  lemma ExtractsAfterClean(prefix: string, j: Value, suffix: string)
    requires j.Obj? && ValueOk(j) && Run(Outside, prefix) == Some(Outside)
    ensures Extract(prefix + Print(j) + suffix) == Print(j)
  {
    var s, n := prefix + Print(j) + suffix, |prefix|;
    assert s[0..0 + n] == prefix;
    ScanMoves(s, 0, prefix, -1, Outside);
    assert s[n..n + |Print(j)|] == Print(j);
    ScanObject(s, n, j);
  }

  /** From outside, the scan of an object returns where it stands. */
  lemma ScanObject(s: string, n: nat, j: Value)
    requires j.Obj? && ValueOk(j) && n + |Print(j)| <= |s| && s[n..n + |Print(j)|] == Print(j)
    ensures Scan(s, n, -1, Outside) == Some((n, n + |Print(j)|))
  {
    var inside, deep := Inside(j.lead, j.members), Mode(1, false, false);
    Inner(s, n, inside);
    assert Scan(s, n, -1, Outside) == Scan(s, n + 1, n, deep);
    RunInside(deep, j.lead, j.members);
    ScanMoves(s, n + 1, inside, n, deep);
  }

  /** Where the parts of a braced text stand. */
  lemma Inner(s: string, n: nat, inside: string)
    requires n + |inside| + 2 <= |s| && s[n..n + |inside| + 2] == "{" + inside + "}"
    ensures s[n] == '{' && s[n + 1..n + 1 + |inside|] == inside && s[n + 1 + |inside|] == '}'
  {
    var whole := s[n..n + |inside| + 2];
    assert forall i :: 0 <= i < |whole| ==> s[n + i] == whole[i];
    forall i | 0 <= i < |inside| ensures s[n + 1..n + 1 + |inside|][i] == inside[i] {
      assert s[n + (i + 1)] == whole[i + 1] == inside[i];
    }
    assert s[n + 0] == whole[0] && s[n + (1 + |inside|)] == whole[1 + |inside|];
  }

  const Bare := Obj("", NoMembers)
  const Spaced := Obj(" ", NoMembers)

  lemma ShortObjects()
    ensures ValueOk(Bare) && Print(Bare) == "{}" && ValueOk(Spaced) && Print(Spaced) == "{ }"
  {
  }

  /** A prefix that leaves the scanner anywhere else spoils the object "{}". */
  lemma SpoiltByPrefix(prefix: string)
    requires Run(Outside, prefix).Some? && Run(Outside, prefix) != Some(Outside)
    ensures Extract(prefix + "{}" + "") == ""
  {
    StaysDeep(Outside, prefix);
    var m := Run(Outside, prefix).value;
    RunAppends(Outside, prefix, "{}");
    assert "{}"[1..] == "}" && "}"[1..] == "";
    assert Run(m, "{}").Some? by {
      var m' := Next(m, '{').value;
      assert Run(m, "{}") == Run(m', "}");
      assert Next(m', '}').Some?;
    }
    var s := prefix + "{}" + "";
    assert s == prefix + "{}" && s[0..] == s;
    ScanIsLocal(s, "", 0, -1, Outside);
  }

  /** extractJSON returns the object exactly, for every object and every suffix, if and only if
      the prefix leaves the scanner outside any brace and any string with nothing returned. */
  lemma ExtractExactly(prefix: string)
    ensures (forall j: Value, suffix: string ::
               j.Obj? && ValueOk(j) ==> Extract(prefix + Print(j) + suffix) == Print(j))
            <==> Run(Outside, prefix) == Some(Outside)
  {
    if Run(Outside, prefix) == Some(Outside) {
      forall j: Value, suffix: string | j.Obj? && ValueOk(j) ensures Extract(prefix + Print(j) + suffix) == Print(j) {
        ExtractsAfterClean(prefix, j, suffix);
      }
    } else {
      ShortObjects();
      if Run(Outside, prefix).Some? {
        SpoiltByPrefix(prefix);
        assert Extract(prefix + Print(Bare) + "") != Print(Bare);
      } else {
        assert prefix[0..] == prefix;
        FoundInPrefix(prefix, Print(Bare) + "");
        FoundInPrefix(prefix, Print(Spaced) + "");
        assert prefix + Print(Bare) + "" == prefix + (Print(Bare) + "");
        assert prefix + Print(Spaced) + "" == prefix + (Print(Spaced) + "");
        assert Extract(prefix + Print(Bare) + "") == Extract(prefix + Print(Spaced) + "");
        assert Extract(prefix + Print(Bare) + "") != Print(Bare) || Extract(prefix + Print(Spaced) + "") != Print(Spaced);
      }
    }
  }

  lemma FoundInPrefix(prefix: string, more: string)
    requires Run(Outside, prefix).None?
    ensures Extract(prefix + more) == Extract(prefix)
  {
    assert prefix[0..] == prefix;
    ScanIsLocal(prefix, more, 0, -1, Outside);
    ScanInRange(prefix, 0, -1, Outside);
    var r := Scan(prefix, 0, -1, Outside);
    assert (prefix + more)[r.value.0..r.value.1] == prefix[r.value.0..r.value.1];
  }

  /** In particular for every prefix without an opening brace or a quote. */
  lemma {:induction false} PlainPrefixIsClean(prefix: string)
    requires '{' !in prefix && '"' !in prefix
    ensures Run(Outside, prefix) == Some(Outside)
  {
    if prefix != "" {
      assert prefix[0] in prefix;
      PlainPrefixIsClean(prefix[1..]);
    }
  }

  lemma ExtractsAfterPlainText(prefix: string, j: Value, suffix: string)
    requires '{' !in prefix && '"' !in prefix && j.Obj? && ValueOk(j)
    ensures Extract(prefix + Print(j) + suffix) == Print(j)
  {
    PlainPrefixIsClean(prefix);
    ExtractsAfterClean(prefix, j, suffix);
  }

  /** Nothing is returned exactly when the text never closes an outermost brace; otherwise a stretch
      of the text from an opening to a closing brace. */
  lemma FoundExactly(s: string) returns (at: nat)
    ensures Extract(s) == "" <==> Run(Outside, s).Some?
    ensures Extract(s) != "" ==>
              var r := Extract(s);
              && at + |r| <= |s| && r == s[at..at + |r|] && |r| >= 2 && r[0] == '{' && r[|r| - 1] == '}'
              && Run(Outside, s[..at]) == Some(Outside) && Run(Outside, s[..at + |r|]).None?
              && Run(Outside, s[..at + |r| - 1]).Some?
  {
    at := 0;
    assert s[0..] == s;
    ScanEnds(s, 0, -1, Outside);
    ScanInRange(s, 0, -1, Outside);
    var r := Scan(s, 0, -1, Outside);
    if r.Some? {
      at := r.value.0;
    }
  }

  /** The scan from i on, after the text before it has led to mode m. */
  lemma {:induction false} ScanEnds(s: string, i: nat, start: int, m: Mode)
    requires i <= |s| && Run(Outside, s[..i]) == Some(m) && -1 <= start < i
    requires m.depth > 0 ==> start >= 0 && s[start] == '{' && Run(Outside, s[..start]) == Some(Outside)
    ensures var r := Scan(s, i, start, m);
            && (r.None? <==> Run(Outside, s).Some?)
            && (r.Some? ==>
                  var (from, to) := r.value;
                  && 0 <= from < to - 1 < |s| && s[from] == '{' && s[to - 1] == '}'
                  && Run(Outside, s[..from]) == Some(Outside) && Run(Outside, s[..to]).None?
                  && Run(Outside, s[..to - 1]).Some?)
    decreases |s| - i
  {
    if i == |s| {
      assert s[..i] == s;
    } else {
      var m' := Next(m, s[i]);
      assert s[..i + 1] == s[..i] + [s[i]];
      RunAppends(Outside, s[..i], [s[i]]);
      assert [s[i]][1..] == "";
      assert Run(m, [s[i]]) == if m'.None? then None else Some(m'.value);
      if m'.Some? {
        ScanEnds(s, i + 1, Opens(m, s[i], i, start), m'.value);
      } else {
        assert s == s[..i + 1] + s[i + 1..];
        RunAppends(Outside, s[..i + 1], s[i + 1..]);
      }
    }
  }
}
