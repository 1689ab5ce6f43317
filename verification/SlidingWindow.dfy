/** Sliding-window counters on a Redis sorted set (internal/storage/redis/failure_counter.go and
    call_budget.go): the pruned, expiring set against the full list of records. Each pipeline is
    one step, members are distinct, and the clock never goes back. Spans may be anything. */
module SlidingWindow {
  import opened Sets

  /** One Redis key: the sorted set and the time it expires. */
  datatype Key = Key(z: map<string, int>, expiry: int)

  const NoKey := Key(map[], 0)

  function Live(k: Key, now: int): map<string, int>
  {
    if now < k.expiry then k.z else map[]
  }

  /** ZREMRANGEBYSCORE key -inf cutoff. */
  function Prune(z: map<string, int>, cutoff: int): map<string, int>
  {
    map m | m in z && z[m] > cutoff :: z[m]
  }

  /** ZADD, ZREMRANGEBYSCORE, EXPIRE. */
  function Recorded(k: Key, now: int, member: string, span: int): Key
  {
    Key(Prune(Live(k, now)[member := now], now - span), now + 2 * span)
  }

  function Counted(k: Key, now: int, span: int): Key
  {
    Key(Prune(Live(k, now), now - span), k.expiry)
  }

  // ---- one key over time

  /** lost is history: for each record, the latest time up to which a call made since has pruned,
      its own call included; a key that is found expired has lost everything in it. */
  datatype State = State(
    now: int,
    key: Key,
    all: map<string, int>,   // every record ever made, with its time
    lost: map<string, int>,
    last: int)               // the time of the latest record

  datatype Event =
    | Tick(elapsed: nat)
    | Record(member: string, span: int)
    | Count(span: int)

  predicate Enabled(s: State, e: Event)
  {
    e.Record? ==> e.member !in s.all
  }

  function Max(a: int, b: int): int
  {
    if a < b then b else a
  }

  /** Up to when the record has been pruned, seen at the present time. */
  function LostTo(s: State, m: string): int
    requires m in s.lost && m in s.all
  {
    if s.now < s.key.expiry then s.lost[m] else Max(s.lost[m], s.all[m])
  }

  function LostAfter(s: State, cutoff: int): map<string, int>
    requires s.lost.Keys == s.all.Keys
  {
    map m | m in s.lost :: Max(LostTo(s, m), cutoff)
  }

  function Step(s: State, e: Event): State
    requires s.lost.Keys == s.all.Keys
    ensures Step(s, e).lost.Keys == Step(s, e).all.Keys
  {
    if !Enabled(s, e) then s
    else match e
      case Tick(d) => s.(now := s.now + d)
      case Record(member, span) =>
        State(s.now, Recorded(s.key, s.now, member, span), s.all[member := s.now],
              LostAfter(s, s.now - span)[member := s.now - span], s.now)
      case Count(span) => s.(key := Counted(s.key, s.now, span), lost := LostAfter(s, s.now - span))
  }

  function Exec(start: int, run: seq<Event>): (s: State)
    ensures s.lost.Keys == s.all.Keys
  {
    if run == [] then State(start, NoKey, map[], map[], start)
    else Step(Exec(start, run[..|run| - 1]), run[|run| - 1])
  }

  /** ZCARD at the end of the call. */
  function Answer(s: State, e: Event): nat
    requires s.lost.Keys == s.all.Keys && Enabled(s, e) && !e.Tick?
  {
    |Live(Step(s, e).key, s.now)|
  }

  /** The specification: how many records are younger than the span. */
  function Naive(all: map<string, int>, cutoff: int): nat
  {
    |set m | m in all && all[m] > cutoff|
  }

  predicate RecordInv(s: State, m: string)
    requires s.lost.Keys == s.all.Keys
  {
    && (m in Live(s.key, s.now) <==> m in s.all && s.all[m] > LostTo(s, m))
    && (m in s.all ==> s.all[m] <= s.last <= s.now)
    && (m in Live(s.key, s.now) ==> Live(s.key, s.now)[m] == s.all[m])
    && (m in s.all && s.now >= s.key.expiry ==> s.all[m] <= LostTo(s, m))
  }

  lemma RecordStep(s: State, e: Event, m: string)
    requires s.lost.Keys == s.all.Keys && RecordInv(s, m)
    ensures RecordInv(Step(s, e), m)
  {
  }

  lemma {:induction false} AlwaysInv(start: int, run: seq<Event>, m: string)
    ensures RecordInv(Exec(start, run), m)
  {
    if run != [] {
      AlwaysInv(start, run[..|run| - 1], m);
      RecordStep(Exec(start, run[..|run| - 1]), run[|run| - 1], m);
    }
  }

  /** The answer is the true number exactly when no record inside the window has been lost to an
      earlier call's cutoff or to the key's expiry. */
  lemma ExactlyWhen(start: int, run: seq<Event>, e: Event)
    requires Enabled(Exec(start, run), e) && !e.Tick?
    ensures var s := Exec(start, run);
            Answer(s, e) == Naive(Step(s, e).all, s.now - e.span)
            <==> forall m :: m in s.all && s.all[m] > s.now - e.span ==> s.all[m] > LostTo(s, m)
  {
    var s := Exec(start, run);
    var t := Step(s, e);
    var found, wanted := Live(t.key, s.now).Keys, set m | m in t.all && t.all[m] > s.now - e.span;
    forall m
      ensures m in found <==> m in wanted && (m in s.all ==> s.all[m] > LostTo(s, m))
    {
      AlwaysInv(start, run, m);
      InWindow(s, e, m);
    }
    assert |Live(t.key, s.now)| == |found|;
    SubsetSize(found, wanted);
    AllFound(s, e, found, wanted);
  }

  lemma InWindow(s: State, e: Event, m: string)
    requires s.lost.Keys == s.all.Keys && RecordInv(s, m) && Enabled(s, e) && !e.Tick?
    ensures var t := Step(s, e);
            m in Live(t.key, s.now) <==>
              m in t.all && t.all[m] > s.now - e.span && (m in s.all ==> s.all[m] > LostTo(s, m))
  {
  }

  lemma AllFound(s: State, e: Event, found: set<string>, wanted: set<string>)
    requires s.lost.Keys == s.all.Keys && Enabled(s, e) && !e.Tick?
    requires forall m :: m in wanted <==> m in Step(s, e).all && Step(s, e).all[m] > s.now - e.span
    requires forall m :: m in found <==> m in wanted && (m in s.all ==> s.all[m] > LostTo(s, m))
    ensures found == wanted <==> forall m :: m in s.all && s.all[m] > s.now - e.span ==> s.all[m] > LostTo(s, m)
  {
    if found == wanted {
      forall m | m in s.all && s.all[m] > s.now - e.span ensures s.all[m] > LostTo(s, m) {
        assert Step(s, e).all[m] == s.all[m];
        assert m in wanted;
      }
    } else {
      var m :| m in wanted && m !in found;
      assert m in s.all && Step(s, e).all[m] == s.all[m];
    }
  }

  ghost predicate Covers(run: seq<Event>, span: int)
  {
    forall i :: 0 <= i < |run| && !run[i].Tick? ==> run[i].span >= span
  }

  /** While every call uses at least this span, a record is lost no further than the span back. */
  predicate Shallow(s: State, m: string, span: int)
    requires s.lost.Keys == s.all.Keys
  {
    m in s.all ==> s.lost[m] <= s.now - span && s.all[m] <= s.last <= s.now && s.key.expiry >= s.last + 2 * span
  }

  lemma ShallowStep(s: State, e: Event, m: string, span: int)
    requires s.lost.Keys == s.all.Keys && Shallow(s, m, span) && span > 0 && (!e.Tick? ==> e.span >= span)
    ensures Shallow(Step(s, e), m, span)
  {
  }

  lemma {:induction false} StaysShallow(start: int, run: seq<Event>, m: string, span: int)
    requires Covers(run, span) && span > 0
    ensures Shallow(Exec(start, run), m, span)
  {
    if run != [] {
      var before := run[..|run| - 1];
      assert Covers(before, span);
      StaysShallow(start, before, m, span);
      ShallowStep(Exec(start, before), run[|run| - 1], m, span);
    }
  }

  /** On every history in which no earlier call used a smaller span, neither pruning nor Count nor
      the key's expiry ever shows: the answer is the number of records younger than the span. */
  lemma AnswersAreExact(start: int, run: seq<Event>, e: Event)
    requires Enabled(Exec(start, run), e) && !e.Tick? && Covers(run, e.span)
    ensures Answer(Exec(start, run), e) == Naive(Step(Exec(start, run), e).all, Exec(start, run).now - e.span)
  {
    var s := Exec(start, run);
    forall m | m in s.all && s.all[m] > s.now - e.span ensures s.all[m] > LostTo(s, m) {
      AlwaysInv(start, run, m);
      if e.span > 0 { StaysShallow(start, run, m, e.span); }
    }
    ExactlyWhen(start, run, e);
  }

  lemma ExecThree(start: int, a: Event, b: Event, d: Event)
    ensures Exec(start, [a, b, d]) == Step(Step(Step(Exec(start, []), a), b), d)
  {
    assert [a, b, d][..2] == [a, b] && [a, b][..1] == [a] && [a][..0] == [];
    assert Exec(start, [a]) == Step(Exec(start, []), a);
    assert Exec(start, [a, b]) == Step(Exec(start, [a]), b);
  }

  /** A smaller span before a larger one on the same key does break it, whatever the two are. */
  lemma SmallerSpanFirstLoses(start: int, member: string, small: nat, large: nat)
    requires 0 < small < large
    ensures var run := [Record(member, large), Tick(small), Count(small)];
            Answer(Exec(start, run), Count(large)) < Naive(Exec(start, run).all, Exec(start, run).now - large)
  {
    ExecThree(start, Record(member, large), Tick(small), Count(small));
    var s0 := Exec(start, []);
    var s1 := Step(s0, Record(member, large));
    assert Live(s0.key, start) == map[];
    assert s1.all == map[member := start] && s1.key.z == map[member := start];
    var s3 := Step(Step(s1, Tick(small)), Count(small));
    assert s3.key.z == map[] && s3.all == map[member := start];
    assert member in (set m | m in s3.all && s3.all[m] > s3.now - large);
  }

  // ---- the two counters

  class FailureCounter {
    const threshold: int
    const window: int
    const prefix: string
    var keys: map<string, Key>

    ghost predicate Valid()
    {
      threshold >= 1 && window > 0
    }

    constructor (threshold: int, window: int, prefix: string)
      requires threshold >= 1 && window > 0 // New has checked
      ensures Valid() && this.threshold == threshold && this.window == window && keys == map[]
      ensures this.prefix == if prefix == "" then "fetcher:fail" else prefix
    {
      this.threshold, this.window, this.keys := threshold, window, map[];
      this.prefix := if prefix == "" then "fetcher:fail" else prefix;
    }

    function KeyFor(host: string): string
    {
      prefix + ":" + host
    }

    /** Every host has its own counter. */
    lemma HostsApart(a: string, b: string)
      ensures KeyFor(a) == KeyFor(b) ==> a == b
    {
      assert KeyFor(a)[|prefix| + 1..] == a && KeyFor(b)[|prefix| + 1..] == b;
    }

    function At(key: string): Key
      reads this
    {
      if key in keys then keys[key] else NoKey
    }

    /** lost: the pipeline failed, before or after Redis applied it. */
    method Record(host: string, now: int, member: string, lost: bool, applied: bool) returns (count: int, reached: bool, failed: bool)
      requires Valid()
      modifies this
      ensures host == "" ==> (count, reached, failed) == (0, false, false) && keys == old(keys)
      ensures host != "" ==> failed == lost
      ensures failed ==> (count, reached) == (0, false)
      ensures host != "" && (!lost || applied) ==>
                keys == old(keys)[KeyFor(host) := Recorded(old(At(KeyFor(host))), now, member, window)]
      ensures lost && !applied ==> keys == old(keys)
      ensures host != "" && !lost ==>
                && count == |Live(At(KeyFor(host)), now)|
                && (reached <==> count >= threshold)
      ensures host != "" && (!lost || applied) ==> At(KeyFor(host)).expiry == now + 2 * window
      ensures forall other :: other != host ==> At(KeyFor(other)) == old(At(KeyFor(other)))
    {
      forall other ensures KeyFor(other) == KeyFor(host) ==> other == host { HostsApart(other, host); }
      count, reached, failed := 0, false, false;
      if host == "" { return; }
      if lost && !applied { return 0, false, true; }
      var key, cutoff := KeyFor(host), now - window;
      var z := Live(At(key), now)[member := now];
      z := map m | m in z && z[m] > cutoff :: z[m];
      keys := keys[key := Key(z, now + 2 * window)];
      if lost { return 0, false, true; }
      count := |z|;
      reached := count >= threshold;
    }
  }

  /** null stands for the error. */
  method NewFailureCounter(threshold: int, window: int, prefix: string) returns (c: FailureCounter?)
    ensures c == null <==> threshold < 1 || window <= 0
    ensures c != null ==> c.Valid() && c.keys == map[] && c.threshold == threshold && c.window == window
    ensures c != null ==> c.prefix == if prefix == "" then "fetcher:fail" else prefix
  {
    if threshold < 1 || window <= 0 { return null; }
    c := new FailureCounter(threshold, window, prefix);
  }

  class CallBudget {
    const prefix: string
    var keys: map<string, Key>

    constructor (prefix: string)
      ensures keys == map[] && this.prefix == if prefix == "" then "llmgen:budget" else prefix
    {
      this.keys := map[];
      this.prefix := if prefix == "" then "llmgen:budget" else prefix;
    }

    function KeyFor(window: string): string
    {
      prefix + ":" + window
    }

    lemma WindowsApart(a: string, b: string)
      ensures KeyFor(a) == KeyFor(b) ==> a == b
    {
      assert KeyFor(a)[|prefix| + 1..] == a && KeyFor(b)[|prefix| + 1..] == b;
    }

    function At(key: string): Key
      reads this
    {
      if key in keys then keys[key] else NoKey
    }

    method Count(window: string, span: int, now: int, lost: bool) returns (count: int, failed: bool)
      modifies this
      ensures failed == lost
      ensures lost ==> count == 0 && keys == old(keys)
      ensures !lost ==>
                && keys == old(keys)[KeyFor(window) := Counted(old(At(KeyFor(window))), now, span)]
                && count == |Live(Counted(old(At(KeyFor(window))), now, span), now)|
                && At(KeyFor(window)).expiry == old(At(KeyFor(window))).expiry
      ensures forall other :: other != window ==> At(KeyFor(other)) == old(At(KeyFor(other)))
    {
      forall other ensures KeyFor(other) == KeyFor(window) ==> other == window { WindowsApart(other, window); }
      if lost { return 0, true; }
      var key := KeyFor(window);
      var z := Live(At(key), now);
      z := map m | m in z && z[m] > now - span :: z[m];
      count, failed := |z|, false;
      if now >= At(key).expiry { assert z == map[]; }
      keys := keys[key := Key(z, At(key).expiry)];
    }

    method Record(window: string, span: int, now: int, member: string, lost: bool) returns (count: int, failed: bool)
      modifies this
      ensures failed == lost
      ensures lost ==> count == 0 && keys == old(keys)
      ensures !lost ==>
                && keys == old(keys)[KeyFor(window) := Recorded(old(At(KeyFor(window))), now, member, span)]
                && count == |Live(At(KeyFor(window)), now)|
                && At(KeyFor(window)).expiry == now + 2 * span
      ensures forall other :: other != window ==> At(KeyFor(other)) == old(At(KeyFor(other)))
    {
      forall other ensures KeyFor(other) == KeyFor(window) ==> other == window { WindowsApart(other, window); }
      if lost { return 0, true; }
      var key := KeyFor(window);
      var z := Live(At(key), now)[member := now];
      z := map m | m in z && z[m] > now - span :: z[m];
      keys := keys[key := Key(z, now + 2 * span)];
      // an EXPIRE that leaves no time deletes the key before ZCARD counts it
      count, failed := if span > 0 then |z| else 0, false;
    }
  }
}
