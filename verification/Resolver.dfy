/** Priority routing (internal/bus/resolver.go): the sorted table of host/path rules against the
    naive reading of the rule list, and the chain of resolvers. Strings are Go's byte strings. */
module Resolver {
  import opened Strings

  datatype Job = Job(priority: int, crawler: string, url: string)

  datatype URL = URL(host: string, hostname: string, path: string)

  /** strings.ToLower, regexp.Compile succeeding, Regexp.MatchString and url.Parse. */
  datatype Env = Env(
    lower: string -> string,
    compiles: string -> bool,
    matches: (string, string) -> bool,
    parse: string -> Option<URL>)

  datatype HostPathRule = HostPathRule(host: string, path: string, priority: int)

  /** path None matches every path. */
  datatype Compiled = Compiled(host: string, path: Option<string>, pathLen: nat, priority: int)

  predicate Usable(env: Env, r: HostPathRule)
  {
    r.path == "" || env.compiles(r.path)
  }

  function CompileOne(env: Env, r: HostPathRule): Compiled
  {
    Compiled(env.lower(r.host), if r.path == "" then None else Some(r.path), |r.path|, r.priority)
  }

  function Compile(env: Env, rules: seq<HostPathRule>): seq<Compiled>
  {
    if rules == [] then []
    else (if Usable(env, rules[0]) then [CompileOne(env, rules[0])] else []) + Compile(env, rules[1..])
  }

  // ---- the stable sort

  /** By host, and within a host the longer pattern first. */
  predicate Precedes(a: Compiled, b: Compiled)
  {
    if a.host != b.host then Less(a.host, b.host) else a.pathLen > b.pathLen
  }

  function InsertRule(x: Compiled, s: seq<Compiled>): seq<Compiled>
  {
    if s == [] || !Precedes(s[0], x) then [x] + s else [s[0]] + InsertRule(x, s[1..])
  }

  /** sort.SliceStable; StableSortUnique pins it down. */
  function StableSort(s: seq<Compiled>): seq<Compiled>
  {
    if s == [] then [] else InsertRule(s[0], StableSort(s[1..]))
  }

  ghost predicate InOrder(s: seq<Compiled>)
  {
    forall i, j :: 0 <= i < j < |s| ==> !Precedes(s[j], s[i])
  }

  /** The rules of one host and pattern length, in the order they stand. */
  function Peers(s: seq<Compiled>, k: Compiled): seq<Compiled>
  {
    if s == [] then []
    else (if s[0].host == k.host && s[0].pathLen == k.pathLen then [s[0]] else []) + Peers(s[1..], k)
  }

  lemma PrecedesTransitive(a: Compiled, b: Compiled, c: Compiled)
    requires !Precedes(b, a) && !Precedes(c, b)
    ensures !Precedes(c, a)
  {
    LessTrichotomy(a.host, b.host);
    LessTrichotomy(b.host, c.host);
    LessTrichotomy(a.host, c.host);
    if a.host != b.host && b.host != c.host { LessTransitive(a.host, b.host, c.host); }
  }

  lemma PrecedesOneWay(a: Compiled, b: Compiled)
    requires Precedes(a, b)
    ensures !Precedes(b, a)
  {
    LessTrichotomy(a.host, b.host);
  }

  lemma {:induction false} InsertOrders(x: Compiled, s: seq<Compiled>)
    requires InOrder(s)
    ensures InOrder(InsertRule(x, s))
    ensures forall y :: y in InsertRule(x, s) ==> y == x || y in s
  {
    if s == [] {
    } else if !Precedes(s[0], x) {
      forall j | 0 <= j < |s| ensures !Precedes(s[j], x) {
        if j > 0 { PrecedesTransitive(x, s[0], s[j]); }
      }
    } else {
      InsertOrders(x, s[1..]);
      PrecedesOneWay(s[0], x);
      forall y | y in InsertRule(x, s[1..]) ensures !Precedes(y, s[0]) {
        if y != x {
          var k :| 0 <= k < |s[1..]| && s[1..][k] == y;
          assert s[k + 1] == y;
        }
      }
    }
  }

  lemma {:induction false} InsertPeers(x: Compiled, s: seq<Compiled>, k: Compiled)
    ensures Peers(InsertRule(x, s), k) == Peers([x] + s, k)
  {
    if s != [] && Precedes(s[0], x) {
      InsertPeers(x, s[1..], k);
      assert ([x] + s)[1..] == s;
      assert ([x] + s[1..])[1..] == s[1..];
      assert InsertRule(x, s)[1..] == InsertRule(x, s[1..]);
    }
  }

  lemma {:induction false} SortOrders(s: seq<Compiled>)
    ensures InOrder(StableSort(s))
  {
    if s != [] {
      SortOrders(s[1..]);
      InsertOrders(s[0], StableSort(s[1..]));
    }
  }

  lemma {:induction false} SortKeepsPeers(s: seq<Compiled>, k: Compiled)
    ensures Peers(StableSort(s), k) == Peers(s, k)
  {
    if s != [] {
      SortKeepsPeers(s[1..], k);
      InsertPeers(s[0], StableSort(s[1..]), k);
      assert ([s[0]] + StableSort(s[1..]))[1..] == StableSort(s[1..]);
    }
  }

  lemma {:induction false} HasPeer(s: seq<Compiled>, x: Compiled)
    ensures x in s ==> x in Peers(s, x)
    ensures forall y :: y in Peers(s, x) ==> y in s && y.host == x.host && y.pathLen == x.pathLen
  {
    if s != [] { HasPeer(s[1..], x); }
  }

  /** Ordered, with equal rules left in their order: only one sequence is that. */
  lemma {:induction false} StableSortUnique(s: seq<Compiled>, t: seq<Compiled>)
    requires InOrder(t) && forall k :: Peers(t, k) == Peers(s, k)
    ensures t == StableSort(s)
  {
    var u := StableSort(s);
    SortOrders(s);
    forall k ensures Peers(t, k) == Peers(u, k) { SortKeepsPeers(s, k); }
    OrderedUnique(t, u);
  }

  lemma {:induction false} OrderedUnique(t: seq<Compiled>, u: seq<Compiled>)
    requires InOrder(t) && InOrder(u) && forall k :: Peers(t, k) == Peers(u, k)
    ensures t == u
    decreases |t|
  {
    if t == [] {
      if u != [] { HasPeer(u, u[0]); }
    } else {
      HeadsAgree(t, u);
      forall k ensures Peers(t[1..], k) == Peers(u[1..], k) {
        assert Peers(t, k) == Peers(u, k);
        PeersTail(t, k);
        PeersTail(u, k);
      }
      OrderedUnique(t[1..], u[1..]);
      assert t == [t[0]] + t[1..] && u == [u[0]] + u[1..];
    }
  }

  lemma PeersTail(t: seq<Compiled>, k: Compiled)
    requires t != []
    ensures Peers(t[1..], k) == if t[0].host == k.host && t[0].pathLen == k.pathLen then Peers(t, k)[1..] else Peers(t, k)
  {
  }

  lemma HeadsAgree(t: seq<Compiled>, u: seq<Compiled>)
    requires InOrder(t) && InOrder(u) && (forall k :: Peers(t, k) == Peers(u, k)) && t != []
    ensures u != [] && t[0] == u[0]
  {
    HasPeer(t, t[0]);
    HasPeer(u, t[0]);
    assert Peers(t, t[0]) == Peers(u, t[0]);
    assert Peers(u, t[0])[0] in Peers(u, t[0]) && Peers(u, t[0])[0] in u;
    HasPeer(u, u[0]);
    HasPeer(t, u[0]);
    assert Peers(t, u[0]) == Peers(u, u[0]);
    var x, y := Peers(t, u[0])[0], Peers(u, t[0])[0];
    assert x in Peers(t, u[0]) && x in t && y in u;
    var i :| 0 <= i < |t| && t[i] == x;
    var j :| 0 <= j < |u| && u[j] == y;
    LessTrichotomy(t[0].host, u[0].host);
    assert i > 0 ==> !Precedes(t[i], t[0]);
    assert j > 0 ==> !Precedes(u[j], u[0]);
    assert t[0].host == u[0].host && t[0].pathLen == u[0].pathLen;
  }

  // ---- matching

  predicate Hits(env: Env, r: Compiled, host: string, path: string)
  {
    r.host == host && (r.path.None? || env.matches(r.path.value, path))
  }

  /** The scan of matchHostPath. */
  function FirstHit(env: Env, table: seq<Compiled>, host: string, path: string): Option<Compiled>
  {
    if table == [] then None
    else if Hits(env, table[0], host, path) then Some(table[0])
    else FirstHit(env, table[1..], host, path)
  }

  /** What a rule of the list means, with no table. */
  predicate Applies(env: Env, r: HostPathRule, host: string, path: string)
  {
    env.lower(r.host) == host && (r.path == "" || (env.compiles(r.path) && env.matches(r.path, path)))
  }

  /** Rule i applies, and every other rule that applies has a shorter pattern, or an equally long
      one further down the list. */
  ghost predicate Wins(env: Env, rules: seq<HostPathRule>, i: nat, host: string, path: string)
  {
    && i < |rules| && Applies(env, rules[i], host, path)
    && forall j :: 0 <= j < |rules| && j != i && Applies(env, rules[j], host, path) ==>
         |rules[j].path| < |rules[i].path| || (|rules[j].path| == |rules[i].path| && i < j)
  }

  lemma {:induction false} InsertHit(env: Env, x: Compiled, s: seq<Compiled>, host: string, path: string)
    requires InOrder(s)
    ensures var f := FirstHit(env, s, host, path);
            FirstHit(env, InsertRule(x, s), host, path) ==
            if Hits(env, x, host, path) && (f.None? || f.value.pathLen <= x.pathLen) then Some(x) else f
  {
    if s == [] || !Precedes(s[0], x) {
      assert ([x] + s)[1..] == s;
      if s != [] { NoneBetter(env, x, s, host, path); }
    } else {
      InsertHit(env, x, s[1..], host, path);
      assert InsertRule(x, s)[1..] == InsertRule(x, s[1..]);
    }
  }

  lemma {:induction false} NoneBetter(env: Env, x: Compiled, s: seq<Compiled>, host: string, path: string)
    requires InOrder(s) && forall i :: 0 <= i < |s| && i == 0 ==> !Precedes(s[i], x)
    ensures var f := FirstHit(env, s, host, path);
            f.Some? && x.host == host ==> f.value.pathLen <= x.pathLen
  {
    if s != [] && !Hits(env, s[0], host, path) {
      if |s| > 1 { PrecedesTransitive(x, s[0], s[1]); }
      NoneBetter(env, x, s[1..], host, path);
    }
  }

  /** The sorted scan answers as the naive reading does: the winning rule's priority, or nothing
      exactly when no rule applies. */
  lemma {:induction false} ScanIsNaive(env: Env, rules: seq<HostPathRule>, host: string, path: string) returns (i: nat)
    ensures var f := FirstHit(env, StableSort(Compile(env, rules)), host, path);
            && (f.None? <==> forall j :: 0 <= j < |rules| ==> !Applies(env, rules[j], host, path))
            && (f.Some? ==> Wins(env, rules, i, host, path) && f.value == CompileOne(env, rules[i]))
  {
    i := 0;
    if rules != [] {
      var rest := rules[1..];
      var k := ScanIsNaive(env, rest, host, path);
      var f := FirstHit(env, StableSort(Compile(env, rest)), host, path);
      assert forall j :: 0 <= j < |rest| ==> rest[j] == rules[j + 1];
      assert forall j :: 1 <= j < |rules| ==> rules[j] == rest[j - 1];
      if Usable(env, rules[0]) {
        var x := CompileOne(env, rules[0]);
        assert Compile(env, rules) == [x] + Compile(env, rest);
        assert ([x] + Compile(env, rest))[1..] == Compile(env, rest);
        SortOrders(Compile(env, rest));
        InsertHit(env, x, StableSort(Compile(env, rest)), host, path);
        if Applies(env, rules[0], host, path) && (f.None? || f.value.pathLen <= x.pathLen) {
          i := 0;
        } else {
          i := k + 1;
        }
      } else {
        assert Compile(env, rules) == Compile(env, rest);
        i := k + 1;
      }
    }
  }

  lemma WinnerUnique(env: Env, rules: seq<HostPathRule>, i: nat, j: nat, host: string, path: string)
    requires Wins(env, rules, i, host, path) && Wins(env, rules, j, host, path)
    ensures i == j
  {
  }

  // ---- the rule-based resolver

  datatype FuncRule = FuncRule(match_: Job -> bool, priority: int)

  datatype RuleSet = RuleSet(funcs: seq<FuncRule>, table: seq<Compiled>, fallback: int)

  function FirstFunc(funcs: seq<FuncRule>, job: Job): Option<int>
  {
    if funcs == [] then None
    else if funcs[0].match_(job) then Some(funcs[0].priority)
    else FirstFunc(funcs[1..], job)
  }

  /** The host and path a job is matched by, unless its URL does not parse or has no host. */
  function Target(env: Env, job: Job): Option<(string, string)>
  {
    match env.parse(job.url)
    case None => None
    case Some(u) =>
      if u.host == "" then None else Some((env.lower(u.hostname), if u.path == "" then "/" else u.path))
  }

  function TableHit(env: Env, table: seq<Compiled>, job: Job): Option<int>
  {
    match Target(env, job)
    case None => None
    case Some((host, path)) =>
      match FirstHit(env, table, host, path)
      case None => None
      case Some(r) => Some(r.priority)
  }

  function Decision(env: Env, rs: RuleSet, job: Job): Option<int>
  {
    var f := FirstFunc(rs.funcs, job);
    if f.Some? then f else TableHit(env, rs.table, job)
  }

  lemma {:induction false} FirstFuncMeans(funcs: seq<FuncRule>, job: Job)
    ensures FirstFunc(funcs, job).None? <==> forall i :: 0 <= i < |funcs| ==> !funcs[i].match_(job)
    ensures forall i :: 0 <= i < |funcs| && funcs[i].match_(job) && (forall j :: 0 <= j < i ==> !funcs[j].match_(job))
              ==> FirstFunc(funcs, job) == Some(funcs[i].priority)
  {
    if funcs != [] {
      FirstFuncMeans(funcs[1..], job);
      forall i | 0 <= i < |funcs| && funcs[i].match_(job) && (forall j :: 0 <= j < i ==> !funcs[j].match_(job))
        ensures FirstFunc(funcs, job) == Some(funcs[i].priority)
      {
        if i > 0 {
          assert funcs[1..][i - 1] == funcs[i];
          assert forall j :: 0 <= j < i - 1 ==> funcs[1..][j] == funcs[j + 1];
        }
      }
    }
  }

  /** A decision is made exactly when a function rule matches or a host/path rule applies to the URL's
      lower-case host name and its path, and it is the first matching function rule's priority, else
      the winning host/path rule's. A URL that does not parse or has no host is for function rules alone. */
  lemma DecisionMeans(env: Env, funcs: seq<FuncRule>, rules: seq<HostPathRule>, fallback: int, job: Job)
    ensures var d, u := Decision(env, RuleSet(funcs, StableSort(Compile(env, rules)), fallback), job), env.parse(job.url);
            var aimed := u.Some? && u.value.host != "";
            var host := if aimed then env.lower(u.value.hostname) else "";
            var path := if aimed && u.value.path != "" then u.value.path else "/";
            && (d.Some? <==>
                  (exists i :: 0 <= i < |funcs| && funcs[i].match_(job))
                  || (aimed && exists i :: 0 <= i < |rules| && Applies(env, rules[i], host, path)))
            && (forall i :: 0 <= i < |funcs| && funcs[i].match_(job) && (forall k :: 0 <= k < i ==> !funcs[k].match_(job))
                  ==> d == Some(funcs[i].priority))
            && (forall i: nat :: (forall k :: 0 <= k < |funcs| ==> !funcs[k].match_(job)) && aimed && Wins(env, rules, i, host, path)
                  ==> d == Some(rules[i].priority))
  {
    FirstFuncMeans(funcs, job);
    if Target(env, job).Some? {
      var (host, path) := Target(env, job).value;
      var w := ScanIsNaive(env, rules, host, path);
      forall i: nat | Wins(env, rules, i, host, path)
        ensures TableHit(env, StableSort(Compile(env, rules)), job) == Some(rules[i].priority)
      {
        WinnerUnique(env, rules, i, w, host, path);
      }
    }
  }

  // ---- the chain

  datatype Resolver =
    | Explicit
    | Source(rules: map<string, int>, fallback: int)
    | RuleBased(ruleSet: RuleSet)
    | Default(priority: int)

  predicate ValidPriority(p: int)
  {
    1 <= p <= 3
  }

  const Normal := 2

  predicate Decides(env: Env, r: Resolver, job: Job)
  {
    match r
    case Explicit => ValidPriority(job.priority)
    case Source(rules, _) => job.crawler in rules
    case RuleBased(rs) => Decision(env, rs, job).Some?
    case Default(_) => true
  }

  function Choice(env: Env, r: Resolver, job: Job): int
  {
    match r
    case Explicit => if ValidPriority(job.priority) then job.priority else Normal
    case Source(rules, fallback) => if job.crawler in rules then rules[job.crawler] else fallback
    case RuleBased(rs) => var d := Decision(env, rs, job); if d.Some? then d.value else rs.fallback
    case Default(p) => p
  }

  function ResolveChain(env: Env, chain: seq<Resolver>, terminal: int, job: Job): int
  {
    if chain == [] then terminal
    else if Decides(env, chain[0], job) then Choice(env, chain[0], job)
    else ResolveChain(env, chain[1..], terminal, job)
  }

  /** What each kind of resolver does at the head of a chain: a valid priority of the job stands, a
      registered crawler has its registered priority, a fixed one always answers, and otherwise the rest
      of the chain does. */
  lemma HeadAnswers(env: Env, chain: seq<Resolver>, terminal: int, job: Job)
    ensures ResolveChain(env, [], terminal, job) == terminal
    ensures chain != [] ==>
              var r, answer, rest := chain[0], ResolveChain(env, chain, terminal, job), ResolveChain(env, chain[1..], terminal, job);
              && (r == Explicit ==> answer == if 1 <= job.priority <= 3 then job.priority else rest)
              && (r.Source? ==> answer == if job.crawler in r.rules then r.rules[job.crawler] else rest)
              && (r.Default? ==> answer == r.priority)
  {
  }

  lemma DecisionAnswers(env: Env, chain: seq<Resolver>, terminal: int, job: Job, rs: RuleSet)
    requires chain != [] && chain[0] == RuleBased(rs)
    ensures var d := Decision(env, rs, job);
            ResolveChain(env, chain, terminal, job) == if d.Some? then d.value else ResolveChain(env, chain[1..], terminal, job)
  {
  }

  /** A rule-based resolver at the head of a chain answers with its first matching function rule, else
      with the winning host/path rule; where neither is there, the rest of the chain does. */
  lemma RuleBasedAnswers(env: Env, rest: seq<Resolver>, terminal: int, job: Job,
                         funcs: seq<FuncRule>, rules: seq<HostPathRule>, fallback: int)
    ensures var head := RuleBased(RuleSet(funcs, StableSort(Compile(env, rules)), fallback));
            var answer, u := ResolveChain(env, [head] + rest, terminal, job), env.parse(job.url);
            var aimed := u.Some? && u.value.host != "";
            var host := if aimed then env.lower(u.value.hostname) else "";
            var path := if aimed && u.value.path != "" then u.value.path else "/";
            var none := forall k :: 0 <= k < |funcs| ==> !funcs[k].match_(job);
            var applies := aimed && exists i :: 0 <= i < |rules| && Applies(env, rules[i], host, path);
            && (forall i :: 0 <= i < |funcs| && funcs[i].match_(job) && (forall k :: 0 <= k < i ==> !funcs[k].match_(job))
                  ==> answer == funcs[i].priority)
            && (forall i: nat :: none && aimed && Wins(env, rules, i, host, path) ==> answer == rules[i].priority)
            && (none && !applies ==> answer == ResolveChain(env, rest, terminal, job))
  {
    var rs := RuleSet(funcs, StableSort(Compile(env, rules)), fallback);
    var chain := [RuleBased(rs)] + rest;
    assert chain[1..] == rest;
    DecisionAnswers(env, chain, terminal, job, rs);
    DecisionMeans(env, funcs, rules, fallback, job);
  }

  /** Asked alone, outside any chain, a resolver that cannot decide gives its fallback, and the explicit
      one gives 2. */
  lemma AloneAnswers(env: Env, job: Job, rules: map<string, int>, fallback: int)
    ensures Choice(env, Explicit, job) == if 1 <= job.priority <= 3 then job.priority else 2
    ensures Choice(env, Source(rules, fallback), job) == if job.crawler in rules then rules[job.crawler] else fallback
    ensures forall rs: RuleSet :: Decision(env, rs, job).None? ==> Choice(env, RuleBased(rs), job) == rs.fallback
  {
  }

  function WithFallback(r: Resolver, p: int): Resolver
  {
    match r
    case Source(rules, _) => Source(rules, p)
    case RuleBased(rs) => RuleBased(rs.(fallback := p))
    case _ => r
  }

  /** In a chain the fallbacks of the single resolvers never show; only the terminal one does. */
  lemma {:induction false} FallbacksNeverShow(env: Env, chain: seq<Resolver>, terminal: int, job: Job, ps: seq<int>)
    requires |ps| == |chain|
    ensures ResolveChain(env, seq(|chain|, i requires 0 <= i < |chain| => WithFallback(chain[i], ps[i])), terminal, job)
            == ResolveChain(env, chain, terminal, job)
  {
    if chain != [] {
      FallbacksNeverShow(env, chain[1..], terminal, job, ps[1..]);
      var changed := seq(|chain|, i requires 0 <= i < |chain| => WithFallback(chain[i], ps[i]));
      var rest := seq(|chain[1..]|, i requires 0 <= i < |chain[1..]| => WithFallback(chain[1..][i], ps[1..][i]));
      assert changed[1..] == rest;
    }
  }

  /** The first resolver of the chain that can decide decides, and the terminal priority stands
      exactly when none can. */
  lemma {:induction false} ChainMeans(env: Env, chain: seq<Resolver>, terminal: int, job: Job) returns (i: nat)
    ensures i <= |chain| && forall j :: 0 <= j < i ==> !Decides(env, chain[j], job)
    ensures i < |chain| ==> Decides(env, chain[i], job)
    ensures ResolveChain(env, chain, terminal, job) == if i < |chain| then Choice(env, chain[i], job) else terminal
  {
    i := 0;
    if chain != [] && !Decides(env, chain[0], job) {
      var k := ChainMeans(env, chain[1..], terminal, job);
      i := k + 1;
      assert forall j :: 1 <= j < |chain| ==> chain[j] == chain[1..][j - 1];
    }
  }

  // ---- the objects

  class RuleBasedPriorityResolver {
    const env: Env
    const fallback: int
    var rules: seq<FuncRule>
    var table: Option<seq<Compiled>>   // None is the nil pointer before the first SetHostPathRules

    constructor (env: Env, fallback: int)
      ensures this.env == env && this.fallback == fallback && rules == [] && table == None
    {
      this.env, this.fallback, this.rules, this.table := env, fallback, [], None;
    }

    ghost function Snapshot(): RuleSet
      reads this
    {
      RuleSet(rules, if table.None? then [] else table.value, fallback)
    }

    method AddRule(rule: FuncRule)
      modifies this`rules
      ensures rules == old(rules) + [rule]
    {
      rules := rules + [rule];
    }

    method SetHostPathRules(list: seq<HostPathRule>)
      modifies this`table
      ensures table == Some(StableSort(Compile(env, list)))
    {
      var compiled: seq<Compiled> := [];
      var i := 0;
      assert list[0..] == list;
      while i < |list|
        invariant 0 <= i <= |list| && compiled + Compile(env, list[i..]) == Compile(env, list)
      {
        assert list[i..][1..] == list[i + 1..];
        var entry := Compiled(env.lower(list[i].host), None, |list[i].path|, list[i].priority);
        var keep := true;
        if list[i].path != "" {
          if env.compiles(list[i].path) { entry := entry.(path := Some(list[i].path)); } else { keep := false; }
        }
        ghost var one, rest := if keep then [entry] else [], Compile(env, list[i + 1..]);
        assert Compile(env, list[i..]) == one + rest;
        assert (compiled + one) + rest == compiled + (one + rest);
        if keep { compiled := compiled + [entry]; }
        i := i + 1;
      }
      assert compiled + [] == compiled;
      table := Some(StableSort(compiled));
    }

    method MatchHostPath(job: Job) returns (priority: int, ok: bool)
      ensures ok <==> TableHit(env, Snapshot().table, job).Some?
      ensures ok ==> Some(priority) == TableHit(env, Snapshot().table, job)
      ensures !ok ==> priority == 0
    {
      priority, ok := 0, false;
      if table.None? || |table.value| == 0 { return; }
      var u := env.parse(job.url);
      if u.None? || u.value.host == "" { return; }
      var host, path := env.lower(u.value.hostname), u.value.path;
      if path == "" { path := "/"; }
      var i := 0;
      while i < |table.value|
        invariant 0 <= i <= |table.value|
        invariant FirstHit(env, table.value[i..], host, path) == FirstHit(env, table.value, host, path)
      {
        var rule := table.value[i];
        assert table.value[i..][1..] == table.value[i + 1..];
        if rule.host == host {
          if rule.path.None? || env.matches(rule.path.value, path) { return rule.priority, true; }
        }
        i := i + 1;
      }
    }

    method Resolve(job: Job) returns (priority: int)
      ensures priority == (var d := Decision(env, Snapshot(), job); if d.Some? then d.value else fallback)
    {
      var f := FirstMatching(job);
      if f.Some? { return f.value; }
      var p, ok := MatchHostPath(job);
      priority := if ok then p else fallback;
    }

    method CanResolve(job: Job) returns (can: bool)
      ensures can <==> Decision(env, Snapshot(), job).Some?
    {
      var f := FirstMatching(job);
      if f.Some? { return true; }
      var _, ok := MatchHostPath(job);
      can := ok;
    }

    /** The loop over the function rules that Resolve and CanResolve begin with. */
    method FirstMatching(job: Job) returns (r: Option<int>)
      ensures r == FirstFunc(rules, job)
    {
      var i := 0;
      while i < |rules|
        invariant 0 <= i <= |rules| && FirstFunc(rules[i..], job) == FirstFunc(rules, job)
      {
        assert rules[i..][1..] == rules[i + 1..];
        if rules[i].match_(job) { return Some(rules[i].priority); }
        i := i + 1;
      }
      r := None;
    }
  }

  class CompositeResolver {
    const env: Env
    const terminal: int
    var chain: seq<Resolver>

    constructor (env: Env, priority: int)
      ensures this.env == env && terminal == priority && chain == []
    {
      this.env, this.terminal, this.chain := env, priority, [];
    }

    method Add(resolver: Resolver)
      modifies this
      ensures chain == old(chain) + [resolver]
    {
      chain := chain + [resolver];
    }

    method Resolve(job: Job) returns (priority: int)
      ensures priority == ResolveChain(env, chain, terminal, job)
      ensures chain == [] ==> priority == terminal
      ensures chain != [] ==>
                var r, rest := chain[0], ResolveChain(env, chain[1..], terminal, job);
                && (r == Explicit ==> priority == if 1 <= job.priority <= 3 then job.priority else rest)
                && (r.Source? ==> priority == if job.crawler in r.rules then r.rules[job.crawler] else rest)
                && (r.Default? ==> priority == r.priority)
    {
      var i := 0;
      while i < |chain|
        invariant 0 <= i <= |chain|
        invariant ResolveChain(env, chain[i..], terminal, job) == ResolveChain(env, chain, terminal, job)
      {
        assert chain[i..][1..] == chain[i + 1..];
        if Decides(env, chain[i], job) { return Choice(env, chain[i], job); }
        i := i + 1;
      }
      priority := terminal;
    }
  }
}
