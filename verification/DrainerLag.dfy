/** Several drainers under one leader lock (internal/scheduler/buffer_drainer.go:206-308): how far
    the lag of a topic can rise. Each Redis or Kafka call is one step; the drainers are the only
    producers of their topics, and a measured lag is the true one. */
module DrainerLag {
  import opened BufferDrainer
  import J = JobBuffer
  import L = TokenLocks
  import LL = LeaderLock
  import opened Strings

  /** Where an instance stands inside drainAll. */
  datatype Phase =
    | Began
    | Measured(topic: string, backlog: nat)
    | Holding(topic: string, n: nat)

  datatype State = State(lead: seq<LL.Event>, lag: map<string, nat>, cycles: map<nat, Phase>)

  datatype Event =
    | Lead(e: LL.Event)                   // any goroutine's step on the leader lock
    | Begin(who: nat)                     // TryAcquire answered true
    | Measure(who: nat, topic: string)
    | Take(who: nat, len: nat)            // pop from a buffer of this length
    | Publish(who: nat, sent: nat)        // how many of the popped jobs reached Kafka
    | End(who: nat)                       // before the deferred release
    | Consume(topic: string, k: nat)

  function LagOf(lag: map<string, nat>, topic: string): nat
  {
    if topic in lag then lag[topic] else 0
  }

  function Step(c: Config, l: LL.Config, s: State, e: Event): State
  {
    match e
    case Lead(le) => s.(lead := s.lead + [le])
    case Begin(w) =>
      if w !in s.cycles && LL.Leads(LL.Exec(l, s.lead), w) then s.(cycles := s.cycles[w := Began]) else s
    case Measure(w, topic) =>
      if w in s.cycles && s.cycles[w].Began? then
        s.(cycles := s.cycles[w := Measured(topic, LagOf(s.lag, topic))])
      else s
    case Take(w, len) =>
      if w in s.cycles && s.cycles[w].Measured? then
        var n := CycleSize(c, s.cycles[w].backlog, len);
        s.(cycles := s.cycles[w := if n == 0 then Began else Holding(s.cycles[w].topic, n)])
      else s
    case Publish(w, sent) =>
      if w in s.cycles && s.cycles[w].Holding? && sent <= s.cycles[w].n then
        var topic := s.cycles[w].topic;
        s.(lag := s.lag[topic := LagOf(s.lag, topic) + sent], cycles := s.cycles[w := Began])
      else s
    case End(w) =>
      if w in s.cycles && s.cycles[w].Began? then s.(cycles := s.cycles - {w}) else s
    case Consume(topic, k) =>
      if k <= LagOf(s.lag, topic) then s.(lag := s.lag[topic := LagOf(s.lag, topic) - k]) else s
  }

  function Exec(c: Config, l: LL.Config, start: map<string, nat>, run: seq<Event>): State
  {
    if run == [] then State([], start, map[])
    else Step(c, l, Exec(c, l, start, run[..|run| - 1]), run[|run| - 1])
  }

  /** Every instance inside a cycle still leads. */
  ghost predicate LeadersOnly(l: LL.Config, s: State)
  {
    forall w :: w in s.cycles ==> LL.Leads(LL.Exec(l, s.lead), w)
  }

  /** Cycles finish within the TTL of the leader lock. */
  ghost predicate Timely(c: Config, l: LL.Config, start: map<string, nat>, run: seq<Event>)
  {
    forall i :: 0 <= i <= |run| ==> LeadersOnly(l, Exec(c, l, start, run[..i]))
  }

  function Bound(c: Config, start: map<string, nat>, topic: string): int
  {
    if LagOf(start, topic) > c.target then LagOf(start, topic) else c.target
  }

  /** What a measurement and a batch in hand promise about the lag. */
  ghost predicate Promise(c: Config, s: State, w: nat)
    requires w in s.cycles
  {
    match s.cycles[w]
    case Began => true
    case Measured(topic, backlog) => LagOf(s.lag, topic) <= backlog
    case Holding(topic, n) => LagOf(s.lag, topic) + n <= c.target
  }

  ghost predicate Inv(c: Config, start: map<string, nat>, s: State)
  {
    && (forall w :: w in s.cycles ==> Promise(c, s, w))
    && (forall topic :: LagOf(s.lag, topic) <= Bound(c, start, topic))
  }

  lemma StepKeeps(c: Config, l: LL.Config, start: map<string, nat>, s: State, e: Event)
    requires Inv(c, start, s) && LeadersOnly(l, s)
    ensures Inv(c, start, Step(c, l, s, e))
  {
    var t := Step(c, l, s, e);
    forall w | w in t.cycles ensures Promise(c, t, w) {
      if w in s.cycles { assert Promise(c, s, w); }
      if e.Publish? && e.who in s.cycles && w != e.who {
        LL.AtMostOneLeader(l, s.lead, w, e.who);
      }
    }
    forall topic ensures LagOf(t.lag, topic) <= Bound(c, start, topic) {
      assert LagOf(s.lag, topic) <= Bound(c, start, topic);
      if e.Publish? && e.who in s.cycles { assert Promise(c, s, e.who); }
    }
  }

  lemma {:induction false} AlwaysInv(c: Config, l: LL.Config, start: map<string, nat>, run: seq<Event>)
    requires Timely(c, l, start, run)
    ensures Inv(c, start, Exec(c, l, start, run))
  {
    if run != [] {
      var before := run[..|run| - 1];
      forall i | 0 <= i <= |before| ensures LeadersOnly(l, Exec(c, l, start, before[..i])) {
        assert before[..i] == run[..i];
      }
      AlwaysInv(c, l, start, before);
      assert before[..|before|] == before;
      StepKeeps(c, l, start, Exec(c, l, start, before), run[|run| - 1]);
    }
  }

  /** The backlog target holds against every interleaving: whatever the instances, their lock
      goroutines and the consumers do, no topic's lag passes the target unless it started there. */
  lemma LagNeverPassesTarget(c: Config, l: LL.Config, start: map<string, nat>, run: seq<Event>, topic: string)
    requires Timely(c, l, start, run)
    ensures LagOf(Exec(c, l, start, run).lag, topic) <= c.target
            || LagOf(Exec(c, l, start, run).lag, topic) <= LagOf(start, topic)
  {
    AlwaysInv(c, l, start, run);
    assert LagOf(Exec(c, l, start, run).lag, topic) <= Bound(c, start, topic);
  }

  // ---- the hypothesis is needed

  lemma {:induction false} ExecAppends(c: Config, l: LL.Config, start: map<string, nat>, run: seq<Event>, e: Event)
    ensures Exec(c, l, start, run + [e]) == Step(c, l, Exec(c, l, start, run), e)
  {
    assert (run + [e])[..|run|] == run;
  }

  lemma LeadAppends(l: LL.Config, lead: seq<LL.Event>, e: LL.Event)
    ensures LL.Exec(l, lead + [e]) == LL.Step(l, LL.Exec(l, lead), e)
  {
    assert (lead + [e])[..|lead|] == lead;
  }

  lemma LeadThree(l: LL.Config, lead: seq<LL.Event>, a: LL.Event, b: LL.Event, d: LL.Event)
    ensures LL.Exec(l, lead + [a] + [b] + [d]) == LL.Step(l, LL.Step(l, LL.Step(l, LL.Exec(l, lead), a), b), d)
  {
    LeadAppends(l, lead, a);
    LeadAppends(l, lead + [a], b);
    LeadAppends(l, lead + [a] + [b], d);
  }

  /** The lock is free, and the instance has done nothing yet. */
  predicate Electable(l: LL.Config, s: LL.State, who: nat, token: string)
  {
    && s.calls == map[] && LL.Local(s, who) == "" && token !in s.bearer && L.Fresh(s.locks, token, l.ttl)
    && !L.Present(s.locks, l.key)
  }

  lemma TakesLock(l: LL.Config, s: LL.State, who: nat, token: string)
    requires Electable(l, s, who, token)
    ensures var t := LL.Step(l, LL.Step(l, s, LL.Check(who, who, token)), LL.TrySet(who));
            && t.calls == map[who := LL.Won(who, token)] && t.local == s.local && t.bearer == s.bearer[token := who]
            && t.locks == L.Step(s.locks, L.SetNX(l.key, token, l.ttl))
  {
    var u := LL.Step(l, s, LL.Check(who, who, token));
    assert u.calls == map[who := LL.Checked(who, token)] && u.locks == s.locks;
    assert LL.Command(l, u, LL.TrySet(who)) == Some(L.SetNX(l.key, token, l.ttl));
  }

  lemma Elects(l: LL.Config, s: LL.State, who: nat, token: string)
    requires Electable(l, s, who, token)
    ensures var t := LL.Step(l, LL.Step(l, LL.Step(l, s, LL.Check(who, who, token)), LL.TrySet(who)), LL.Store(who));
            && LL.Leads(t, who) && t.calls == map[] && t.local == s.local[who := token] && t.bearer == s.bearer[token := who]
            && t.locks == L.Step(s.locks, L.SetNX(l.key, token, l.ttl))
  {
    TakesLock(l, s, who, token);
  }

  /** A reached state in which the instance has just been elected and has measured the topic. */
  lemma ElectedAndMeasured(c: Config, l: LL.Config, start: map<string, nat>, run: seq<Event>, who: nat, token: string, topic: string)
    returns (more: seq<Event>)
    requires var s := Exec(c, l, start, run); Electable(l, LL.Exec(l, s.lead), who, token) && who !in s.cycles
    ensures var s, t := Exec(c, l, start, run), Exec(c, l, start, more);
            var u := LL.Step(l, LL.Step(l, LL.Step(l, LL.Exec(l, s.lead), LL.Check(who, who, token)), LL.TrySet(who)), LL.Store(who));
            && t.lag == s.lag && t.cycles == s.cycles[who := Measured(topic, LagOf(s.lag, topic))]
            && LL.Exec(l, t.lead) == u
  {
    var s := Exec(c, l, start, run);
    var a, b, d := LL.Check(who, who, token), LL.TrySet(who), LL.Store(who);
    LeadThree(l, s.lead, a, b, d);
    Elects(l, LL.Exec(l, s.lead), who, token);
    ExecAppends(c, l, start, run, Lead(a));
    ExecAppends(c, l, start, run + [Lead(a)], Lead(b));
    ExecAppends(c, l, start, run + [Lead(a)] + [Lead(b)], Lead(d));
    var led := run + [Lead(a)] + [Lead(b)] + [Lead(d)];
    assert Exec(c, l, start, led) == s.(lead := s.lead + [a] + [b] + [d]);
    ExecAppends(c, l, start, led, Begin(who));
    ExecAppends(c, l, start, led + [Begin(who)], Measure(who, topic));
    more := led + [Begin(who)] + [Measure(who, topic)];
  }

  /** A cycle that outlives its lock breaks the bound: the first leader measures, its lock expires,
      a second one is elected and measures the same, and both publish up to the target. */
  lemma OverrunOvershoots(c: Config, l: LL.Config, topic: string) returns (run: seq<Event>)
    requires c.target > 0 && c.batch >= c.target && l.ttl > 0
    ensures LagOf(Exec(c, l, map[topic := 0], run).lag, topic) == 2 * c.target
    ensures !Timely(c, l, map[topic := 0], run)
  {
    var start: map<string, nat> := map[topic := 0];
    assert LL.Exec(l, []) == LL.Start;
    var one := ElectedAndMeasured(c, l, start, [], 0, "a", topic);
    Elects(l, LL.Start, 0, "a");
    var s := Exec(c, l, start, one);
    ExecAppends(c, l, start, one, Lead(LL.Tick(l.ttl)));
    LeadAppends(l, s.lead, LL.Tick(l.ttl));
    assert Electable(l, LL.Step(l, LL.Exec(l, s.lead), LL.Tick(l.ttl)), 1, "b");
    var two := ElectedAndMeasured(c, l, start, one + [Lead(LL.Tick(l.ttl))], 1, "b", topic);
    run := BothPublish(c, l, start, two, topic);
    if Timely(c, l, start, run) { LagNeverPassesTarget(c, l, start, run, topic); }
  }

  lemma BothPublish(c: Config, l: LL.Config, start: map<string, nat>, run: seq<Event>, topic: string) returns (more: seq<Event>)
    requires c.target > 0 && c.batch >= c.target
    requires var s := Exec(c, l, start, run);
             LagOf(s.lag, topic) == 0 && s.cycles == map[0 := Measured(topic, 0), 1 := Measured(topic, 0)]
    ensures LagOf(Exec(c, l, start, more).lag, topic) == 2 * c.target
  {
    var n := c.target;
    ExecAppends(c, l, start, run, Take(0, n));
    ExecAppends(c, l, start, run + [Take(0, n)], Take(1, n));
    ExecAppends(c, l, start, run + [Take(0, n)] + [Take(1, n)], Publish(0, n));
    ExecAppends(c, l, start, run + [Take(0, n)] + [Take(1, n)] + [Publish(0, n)], Publish(1, n));
    more := run + [Take(0, n)] + [Take(1, n)] + [Publish(0, n)] + [Publish(1, n)];
  }
}
