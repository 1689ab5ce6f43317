/** The circuit breaker (pkg/resilience/circuit_breaker.go). Every method runs under one mutex, so
    a run is a list of whole calls and of the clock's steps. */
module CircuitBreaker {

  datatype Mode = Closed | Open | HalfOpen

  datatype Config = Config(maxFailures: int, openTimeout: int)

  datatype Breaker = Breaker(mode: Mode, failures: int, openedAt: int, probeActive: bool)

  const Fresh := Breaker(Closed, 0, 0, false)

  /** The breaker with the clock and the history of the calls. A request is named by the order of
      its admission; nothing tells the breaker which request an outcome belongs to. */
  datatype State = State(
    now: int,
    b: Breaker,
    since: nat,              // failures recorded since the last recorded success
    left: int,               // when the breaker last left closed
    lastOpen: int,           // when it last became open
    admitted: seq<int>,      // when requests were admitted since it left closed
    count: nat,              // requests admitted so far
    out: map<nat, bool>)     // those without a recorded outcome; true for a probe

  datatype Event =
    | Tick(elapsed: nat)
    | Allow
    | Success(id: nat)
    | Failure(id: nat)

  function Allowed(c: Config, b: Breaker, now: int): (bool, Breaker)
  {
    match b.mode
    case Closed => (true, b)
    case Open =>
      if now - b.openedAt >= c.openTimeout then (true, b.(mode := HalfOpen, probeActive := true)) else (false, b)
    case HalfOpen =>
      if b.probeActive then (false, b) else (true, b.(probeActive := true))
  }

  function Succeeded(b: Breaker): Breaker
  {
    var b := b.(failures := 0);
    if b.mode.HalfOpen? then b.(mode := Closed, probeActive := false) else b
  }

  function Failed(c: Config, b: Breaker, now: int): Breaker
  {
    match b.mode
    case Closed =>
      var b := b.(failures := b.failures + 1);
      if b.failures >= c.maxFailures then b.(mode := Open, openedAt := now) else b
    case Open => b
    case HalfOpen => b.(mode := Open, openedAt := now, probeActive := false)
  }

  function Step(c: Config, s: State, e: Event): State
  {
    match e
    case Tick(d) => s.(now := s.now + d)
    case Allow =>
      var (ok, b) := Allowed(c, s.b, s.now);
      if !ok then s.(b := b)
      else
        var probe := !s.b.mode.Closed?;
        s.(b := b, admitted := if probe then s.admitted + [s.now] else s.admitted,
           count := s.count + 1, out := s.out[s.count := probe])
    case Success(id) =>
      if id in s.out then s.(b := Succeeded(s.b), since := 0, out := s.out - {id}) else s
    case Failure(id) =>
      if id !in s.out then s
      else
        var b := Failed(c, s.b, s.now);
        var s := if s.b.mode.Closed? && b.mode.Open? then s.(left := s.now, admitted := []) else s;
        var s := if !s.b.mode.Open? && b.mode.Open? then s.(lastOpen := s.now) else s;
        s.(b := b, since := s.since + 1, out := s.out - {id})
  }

  function Begin(start: int): State
  {
    State(start, Fresh, 0, start, start, [], 0, map[])
  }

  function Exec(c: Config, start: int, run: seq<Event>): State
  {
    if run == [] then Begin(start) else Step(c, Exec(c, start, run[..|run| - 1]), run[|run| - 1])
  }

  predicate IsOutcome(e: Event)
  {
    e.Success? || e.Failure?
  }

  /** The outcome of a request that has none yet. */
  predicate Records(s: State, e: Event)
  {
    IsOutcome(e) && e.id in s.out
  }

  /** Half-open, an outcome of a request admitted before the present probe. */
  predicate Late(s: State, e: Event)
  {
    s.b.mode.HalfOpen? && Records(s, e) && e.id + 1 < s.count
  }

  function Probes(s: State): set<nat>
  {
    set i | i in s.out && s.out[i]
  }

  /** The present probe is the request admitted last, and it has no outcome yet. */
  predicate ProbeOut(s: State)
  {
    s.count > 0 && s.count - 1 in s.out && s.out[s.count - 1]
  }

  ghost predicate Spaced(c: Config, left: int, times: seq<int>)
  {
    && (forall i :: 0 <= i < |times| ==> times[i] - left >= c.openTimeout)
    && (forall i, j :: 0 <= i < j < |times| ==> times[i] <= times[j] && times[j] - times[i] >= c.openTimeout)
  }

  ghost predicate Inv(c: Config, s: State)
  {
    && (s.b.mode.HalfOpen? <==> s.b.probeActive)
    && (s.b.mode.HalfOpen? ==> ProbeOut(s))
    && (forall i :: i in s.out ==> i < s.count)
    && (s.b.mode.Closed? ==> s.b.failures == s.since && (s.since < c.maxFailures || s.since == 0))
    && (s.b.mode.Open? ==> s.b.openedAt == s.lastOpen)
    && s.left <= s.now && (s.b.mode.Open? ==> s.left <= s.b.openedAt <= s.now)
    && Spaced(c, s.left, s.admitted)
    && (forall i :: 0 <= i < |s.admitted| ==>
          s.left <= s.admitted[i] <= (if s.b.mode.Open? then s.b.openedAt else s.now))
  }

  lemma {:induction false} AlwaysInv(c: Config, start: int, run: seq<Event>)
    ensures Inv(c, Exec(c, start, run))
  {
    if run != [] {
      AlwaysInv(c, start, run[..|run| - 1]);
      var s := Exec(c, start, run[..|run| - 1]);
      if run[|run| - 1].Allow? { AllowKeeps(c, s); } else { OutcomeKeeps(c, s, run[|run| - 1]); }
    }
  }

  lemma AllowKeeps(c: Config, s: State)
    requires Inv(c, s)
    ensures Inv(c, Step(c, s, Allow))
  {
    if s.b.mode.Open? && s.now - s.b.openedAt >= c.openTimeout {
      OneMoreSpaced(c, s.left, s.b.openedAt, s.admitted, s.now);
    }
  }

  lemma OneMoreSpaced(c: Config, left: int, since: int, times: seq<int>, now: int)
    requires Spaced(c, left, times) && left <= since <= now && now - since >= c.openTimeout
    requires forall i :: 0 <= i < |times| ==> left <= times[i] <= since
    ensures Spaced(c, left, times + [now])
  {
  }

  lemma OutcomeKeeps(c: Config, s: State, e: Event)
    requires Inv(c, s) && !e.Allow?
    ensures Inv(c, Step(c, s, e))
  {
  }

  /** In every run half-open means that the request admitted last is a probe without an outcome,
      and while closed the counter is the number of failures since the last success, short of
      the limit. */
  lemma CountsWhileClosed(c: Config, start: int, run: seq<Event>)
    ensures var s := Exec(c, start, run);
            && (s.b.mode.HalfOpen? <==> s.b.probeActive)
            && (s.b.mode.HalfOpen? ==> ProbeOut(s))
            && (s.b.mode.Closed? ==> s.b.failures == s.since)
            && (s.b.mode.Closed? && c.maxFailures >= 1 ==> s.b.failures < c.maxFailures)
  {
    AlwaysInv(c, start, run);
  }

  /** It opens on exactly the failure that makes maxFailures in a row, and never otherwise while
      closed. */
  lemma TripsExactly(c: Config, start: int, run: seq<Event>, e: Event)
    requires c.maxFailures >= 1
    ensures var s, t := Exec(c, start, run), Step(c, Exec(c, start, run), e);
            s.b.mode.Closed? ==>
              (!t.b.mode.Closed? <==> e.Failure? && Records(s, e) && s.since + 1 == c.maxFailures)
  {
    AlwaysInv(c, start, run);
  }

  /** When the mode changes, in any run: a failure opens it from closed (TripsExactly), an admission after
      openTimeout makes it half-open, and there the next outcome decides, success closing it and failure
      opening it anew from that moment. Nothing else changes it. */
  lemma ModeChangesExactly(c: Config, start: int, run: seq<Event>, e: Event)
    requires c.maxFailures >= 1
    ensures var s, t := Exec(c, start, run), Step(c, Exec(c, start, run), e);
            && (s.b.mode.Open? ==>
                  t.b.mode == if e == Allow && s.now - s.lastOpen >= c.openTimeout then HalfOpen else Open)
            && (s.b.mode.HalfOpen? ==>
                  t.b.mode == if e.Success? && Records(s, e) then Closed else if e.Failure? && Records(s, e) then Open else HalfOpen)
            && (s.b.mode.Closed? ==> !t.b.mode.HalfOpen?)
            && (t.b.mode.Open? && !s.b.mode.Open? ==> t.b.openedAt == s.now == t.lastOpen)
            && (t.b.mode.Closed? && !s.b.mode.Closed? ==> t.b.failures == 0)
  {
    AlwaysInv(c, start, run);
  }

  /** A request passes exactly while closed, or as the one probe once the breaker has been open for
      openTimeout. */
  lemma AdmitsExactly(c: Config, start: int, run: seq<Event>)
    ensures var s := Exec(c, start, run);
            Allowed(c, s.b, s.now).0 <==> s.b.mode.Closed? || (s.b.mode.Open? && s.now - s.lastOpen >= c.openTimeout)
  {
    AlwaysInv(c, start, run);
  }

  /** Between leaving and re-entering closed, no request passes within openTimeout of the opening
      or of another request. */
  lemma ProbesAreSpaced(c: Config, start: int, run: seq<Event>, i: nat, j: nat)
    requires i < j < |Exec(c, start, run).admitted|
    ensures var s := Exec(c, start, run);
            && s.admitted[i] - s.left >= c.openTimeout
            && s.admitted[j] - s.admitted[i] >= c.openTimeout
  {
    AlwaysInv(c, start, run);
  }

  // ---- whose outcome ends half-open

  /** A probe is out exactly while half-open, and only one. */
  ghost predicate Tied(s: State)
  {
    Probes(s) == if s.b.mode.HalfOpen? then {s.count - 1} else {}
  }

  ghost predicate TiedThroughout(c: Config, start: int, run: seq<Event>)
  {
    forall i :: 0 <= i <= |run| ==> Tied(Exec(c, start, run[..i]))
  }

  ghost predicate NoneLate(c: Config, start: int, run: seq<Event>)
  {
    forall i :: 0 <= i < |run| ==> !Late(Exec(c, start, run[..i]), run[i])
  }

  lemma TiedStep(c: Config, s: State, e: Event)
    requires Inv(c, s) && Tied(s)
    ensures Tied(Step(c, s, e)) <==> !Late(s, e)
  {
    var t := Step(c, s, e);
    if Late(s, e) {
      assert s.count - 1 in Probes(t);
    } else {
      forall i ensures i in Probes(t) <==> t.b.mode.HalfOpen? && i == t.count - 1 {
        assert i in Probes(s) <==> s.b.mode.HalfOpen? && i == s.count - 1;
      }
    }
  }

  lemma ExecPrefix(c: Config, start: int, run: seq<Event>, i: nat)
    requires i < |run|
    ensures Exec(c, start, run[..i + 1]) == Step(c, Exec(c, start, run[..i]), run[i])
  {
    assert run[..i + 1][..i] == run[..i];
  }

  lemma {:induction false} StaysTied(c: Config, start: int, run: seq<Event>, n: nat)
    requires n <= |run| && NoneLate(c, start, run)
    ensures Tied(Exec(c, start, run[..n]))
  {
    if n == 0 {
      assert Probes(Begin(start)) == {};
    } else {
      StaysTied(c, start, run, n - 1);
      AlwaysInv(c, start, run[..n - 1]);
      TiedStep(c, Exec(c, start, run[..n - 1]), run[n - 1]);
      ExecPrefix(c, start, run, n - 1);
    }
  }

  /** The breaker keeps its promise of a single probe, out exactly while half-open and ended by its
      own outcome, in exactly the runs in which no request admitted earlier records its outcome
      while half-open. */
  lemma ProbesExact(c: Config, start: int, run: seq<Event>)
    ensures TiedThroughout(c, start, run) <==> NoneLate(c, start, run)
  {
    if NoneLate(c, start, run) {
      forall i | 0 <= i <= |run| ensures Tied(Exec(c, start, run[..i])) { StaysTied(c, start, run, i); }
    }
    if TiedThroughout(c, start, run) {
      forall i | 0 <= i < |run| ensures !Late(Exec(c, start, run[..i]), run[i]) {
        AlwaysInv(c, start, run[..i]);
        ExecPrefix(c, start, run, i);
        assert Tied(Exec(c, start, run[..i])) && Tied(Exec(c, start, run[..i + 1]));
        TiedStep(c, Exec(c, start, run[..i]), run[i]);
      }
    }
  }

  lemma ExecMore(c: Config, start: int, run: seq<Event>, e: Event)
    ensures Exec(c, start, run + [e]) == Step(c, Exec(c, start, run), e)
  {
    assert (run + [e])[..|run|] == run;
  }

  /** Two requests admitted, one trips the breaker, a probe goes out, and the other fails late. */
  function LateRun(c: Config): seq<Event>
    requires c.openTimeout >= 0
  {
    [Allow] + [Allow] + [Failure(0)] + [Tick(c.openTimeout)] + [Allow] + [Failure(1)]
  }

  lemma LateRunState(c: Config, start: int)
    requires c.maxFailures <= 1 && c.openTimeout >= 0
    ensures var s := Exec(c, start, LateRun(c));
            && s.b.mode.Open? && s.now == s.b.openedAt == start + c.openTimeout
            && s.count == 3 && s.out == map[2 := true] && |s.admitted| == 1
    ensures Late(Exec(c, start, [Allow] + [Allow] + [Failure(0)] + [Tick(c.openTimeout)] + [Allow]), Failure(1))
  {
    var T := Tick(c.openTimeout);
    ExecMore(c, start, [], Allow);
    assert [] + [Allow] == [Allow];
    ExecMore(c, start, [Allow], Allow);
    ExecMore(c, start, [Allow] + [Allow], Failure(0));
    ExecMore(c, start, [Allow] + [Allow] + [Failure(0)], T);
    ExecMore(c, start, [Allow] + [Allow] + [Failure(0)] + [T], Allow);
    ExecMore(c, start, [Allow] + [Allow] + [Failure(0)] + [T] + [Allow], Failure(1));
    assert Exec(c, start, [Allow] + [Allow] + [Failure(0)] + [T] + [Allow]).out == map[1 := false, 2 := true];
  }

  /** It happens: the late failure reopens the breaker under its probe, and after openTimeout a
      second probe joins the first. */
  lemma LateFailureDoublesProbe(c: Config, start: int)
    requires c.maxFailures <= 1 && c.openTimeout >= 0
    ensures var s := Exec(c, start, LateRun(c) + [Tick(c.openTimeout)] + [Allow]);
            s.b.mode.HalfOpen? && Probes(s) == {2, 3} && |s.admitted| == 2
  {
    LateRunState(c, start);
    AlwaysInv(c, start, LateRun(c));
    ExecMore(c, start, LateRun(c), Tick(c.openTimeout));
    ExecMore(c, start, LateRun(c) + [Tick(c.openTimeout)], Allow);
    var s := Exec(c, start, LateRun(c) + [Tick(c.openTimeout)] + [Allow]);
    assert s.out == map[2 := true, 3 := true];
  }

  /** And a late success, in any reached half-open state, closes the breaker on its probe. */
  lemma LateSuccessCloses(c: Config, start: int, run: seq<Event>, id: nat)
    requires Late(Exec(c, start, run), Success(id))
    ensures var t := Step(c, Exec(c, start, run), Success(id)); t.b.mode.Closed? && ProbeOut(t)
  {
    AlwaysInv(c, start, run);
  }

  ghost predicate Stays(c: Config, start: int, run: seq<Event>, more: seq<Event>)
  {
    forall i :: 0 <= i <= |more| ==> Exec(c, start, run + more[..i]).b.mode.HalfOpen?
  }

  ghost predicate Quiet(s: State, more: seq<Event>)
  {
    forall i :: 0 <= i < |more| ==> !Records(s, more[i])
  }

  lemma {:induction false} QuietKeeps(c: Config, start: int, run: seq<Event>, more: seq<Event>)
    requires Exec(c, start, run).b.mode.HalfOpen? && Quiet(Exec(c, start, run), more)
    ensures var s, t := Exec(c, start, run), Exec(c, start, run + more);
            t.b == s.b && t.out == s.out && t.admitted == s.admitted
  {
    AlwaysInv(c, start, run);
    if more == [] {
      assert run + more == run;
    } else {
      var n := |more| - 1;
      assert (run + more)[..|run + more| - 1] == run + more[..n];
      QuietKeeps(c, start, run, more[..n]);
      assert !Records(Exec(c, start, run), more[n]);
    }
  }

  /** Once half-open, the breaker admits nothing and stays so for exactly as long as none of the
      requests without an outcome records one: whichever does first ends it, and if none ever
      does it never ends. */
  lemma OneProbeAtATime(c: Config, start: int, run: seq<Event>, more: seq<Event>)
    requires Exec(c, start, run).b.mode.HalfOpen?
    ensures Stays(c, start, run, more) <==> Quiet(Exec(c, start, run), more)
    ensures Stays(c, start, run, more) ==> Exec(c, start, run + more).admitted == Exec(c, start, run).admitted
  {
    var s := Exec(c, start, run);
    if Quiet(s, more) {
      forall i | 0 <= i <= |more| ensures Exec(c, start, run + more[..i]).b.mode.HalfOpen? {
        QuietKeeps(c, start, run, more[..i]);
      }
      QuietKeeps(c, start, run, more);
    } else {
      var i := FirstRecord(s, more);
      QuietKeeps(c, start, run, more[..i]);
      AlwaysInv(c, start, run + more[..i]);
      assert run + more[..i + 1] == run + more[..i] + [more[i]];
      ExecMore(c, start, run + more[..i], more[i]);
      assert !Exec(c, start, run + more[..i + 1]).b.mode.HalfOpen?;
    }
  }

  lemma {:induction false} FirstRecord(s: State, more: seq<Event>) returns (i: nat)
    requires !Quiet(s, more)
    ensures i < |more| && Records(s, more[i]) && Quiet(s, more[..i])
  {
    if Quiet(s, more[..|more| - 1]) {
      i := |more| - 1;
    } else {
      i := FirstRecord(s, more[..|more| - 1]);
      assert more[..|more| - 1][..i] == more[..i];
    }
  }

  class CircuitBreaker {
    const config: Config
    var mode: Mode
    var failures: int
    var openedAt: int
    var probeActive: bool

    constructor (config: Config)
      ensures this.config == config && Snapshot() == Fresh
    {
      this.config := config;
      mode, failures, openedAt, probeActive := Closed, 0, 0, false;
    }

    function Snapshot(): Breaker
      reads this
    {
      Breaker(mode, failures, openedAt, probeActive)
    }

    method Allow(now: int) returns (ok: bool)
      modifies this
      ensures (ok, Snapshot()) == Allowed(config, old(Snapshot()), now)
      ensures ok <==> old(mode) == Closed || (old(mode) == HalfOpen && !old(probeActive))
                      || (old(mode) == Open && now >= old(openedAt) + config.openTimeout)
      ensures mode == (if ok && old(mode) == Open then HalfOpen else old(mode)) && failures == old(failures) && openedAt == old(openedAt)
      ensures probeActive == (old(probeActive) || (ok && old(mode) != Closed))
    {
      match mode {
        case Closed => ok := true;
        case Open =>
          ok := now - openedAt >= config.openTimeout;
          if ok { mode, probeActive := HalfOpen, true; }
        case HalfOpen =>
          ok := !probeActive;
          probeActive := true;
      }
    }

    method RecordSuccess()
      modifies this
      ensures Snapshot() == Succeeded(old(Snapshot()))
      ensures failures == 0 && openedAt == old(openedAt)
      ensures mode == (if old(mode) == HalfOpen then Closed else old(mode))
      ensures probeActive == (old(probeActive) && old(mode) != HalfOpen)
    {
      failures := 0;
      if mode.HalfOpen? { mode, probeActive := Closed, false; }
    }

    method RecordFailure(now: int)
      modifies this
      ensures Snapshot() == Failed(config, old(Snapshot()), now)
      ensures failures == old(failures) + if old(mode) == Closed then 1 else 0
      ensures mode == if old(mode) == Closed && failures < config.maxFailures then Closed else Open
      ensures openedAt == (if old(mode) == Open || mode == Closed then old(openedAt) else now)
      ensures probeActive == (old(probeActive) && old(mode) != HalfOpen)
    {
      match mode {
        case Closed =>
          failures := failures + 1;
          if failures >= config.maxFailures { mode, openedAt := Open, now; }
        case Open =>
        case HalfOpen =>
          mode, openedAt, probeActive := Open, now, false;
      }
    }
  }
}
