/** The consumer pool (internal/workerpool/pool.go:114-224): one poll goroutine feeding a buffered
    channel, the workers draining it, and Stop. Each channel or context operation is one step;
    a message is named by the order in which it was fetched. */
module WorkerPool {
  import opened Strings

  datatype Poll = Fetching | HasMsg(m: nat) | Ended

  datatype Worker = Idle | Handling(m: nat) | Exited

  /** How far the one execution of stopImpl has come. */
  datatype Stop = NotCalled | Cancelled | PollGone | Closed | Graceful | TimedOut

  datatype State = State(
    poll: Poll,
    cancelled: bool,            // the poll context, by Stop or by its parent
    jobs: seq<nat>,             // the channel's buffer
    closed: bool,
    panicked: bool,             // a send on, or a close of, a closed channel
    workers: seq<Worker>,
    stop: Stop,
    // histories
    fetched: nat,
    dropped: Option<nat>,       // lost in the cancelled select
    handled: map<nat, nat>)     // how often each message was handled

  datatype Event =
    | Fetch(ok: bool)
    | Send
    | Abandon                   // the select takes ctx.Done
    | CancelParent
    | Receive(w: nat)
    | Finish(w: nat)
    | StopCancel                // the first call of Stop; later calls only wait
    | StopWait
    | StopClose
    | StopDrained
    | StopTimeout

  function Start(count: nat): State
  {
    State(Fetching, false, [], false, false, seq(count, _ => Idle), NotCalled, 0, None, map[])
  }

  function Times(s: State, m: nat): nat
  {
    if m in s.handled then s.handled[m] else 0
  }

  predicate AllExited(s: State)
  {
    forall w :: 0 <= w < |s.workers| ==> s.workers[w].Exited?
  }

  /** What a worker blocked on the channel gets. */
  function Received(s: State, w: nat): State
    requires w < |s.workers|
  {
    if s.jobs != [] then s.(jobs := s.jobs[1..], workers := s.workers[w := Handling(s.jobs[0])])
    else if s.closed then s.(workers := s.workers[w := Exited])
    else s
  }

  /** cap is the channel's capacity, twice the worker count. */
  function Step(cap: nat, s: State, e: Event): State
  {
    match e
    case Fetch(ok) =>
      if !s.poll.Fetching? then s
      else if ok then s.(poll := HasMsg(s.fetched), fetched := s.fetched + 1)
      else if s.cancelled then s.(poll := Ended)
      else s
    case Send =>
      if !s.poll.HasMsg? then s
      else if s.closed then s.(panicked := true)
      else if |s.jobs| < cap then s.(jobs := s.jobs + [s.poll.m], poll := Fetching)
      else s
    case Abandon =>
      if s.poll.HasMsg? && s.cancelled then s.(poll := Ended, dropped := Some(s.poll.m)) else s
    case CancelParent => s.(cancelled := true)
    case Receive(w) => if w < |s.workers| && s.workers[w].Idle? then Received(s, w) else s
    case Finish(w) =>
      if w < |s.workers| && s.workers[w].Handling? then
        var m := s.workers[w].m;
        s.(workers := s.workers[w := Idle], handled := s.handled[m := Times(s, m) + 1])
      else s
    case StopCancel => if s.stop.NotCalled? then s.(stop := Cancelled, cancelled := true) else s
    case StopWait => if s.stop.Cancelled? && s.poll.Ended? then s.(stop := PollGone) else s
    case StopClose =>
      if !s.stop.PollGone? then s
      else if s.closed then s.(panicked := true)
      else s.(stop := Closed, closed := true)
    case StopDrained => if s.stop.Closed? && AllExited(s) then s.(stop := Graceful) else s
    case StopTimeout => if s.stop.Closed? then s.(stop := TimedOut) else s
  }

  function Exec(count: nat, run: seq<Event>): State
  {
    if run == [] then Start(count) else Step(2 * count, Exec(count, run[..|run| - 1]), run[|run| - 1])
  }

  // ---- no send on a closed channel

  ghost predicate Ordered(s: State)
  {
    && !s.panicked
    && (s.stop.PollGone? || s.closed ==> s.poll.Ended?)
    && (s.closed <==> s.stop.Closed? || s.stop.Graceful? || s.stop.TimedOut?)
  }

  // ---- where the messages are

  /** The number of messages workers have received. */
  function Taken(s: State): int
  {
    s.fetched - |s.jobs| - (if s.poll.HasMsg? || s.dropped.Some? then 1 else 0)
  }

  predicate Holds(s: State, w: nat, m: nat)
  {
    w < |s.workers| && s.workers[w] == Handling(m)
  }

  ghost predicate QueueInv(cap: nat, s: State)
  {
    && Taken(s) >= 0 && |s.jobs| <= cap
    && (forall i :: 0 <= i < |s.jobs| ==> s.jobs[i] == Taken(s) + i)
    && (s.poll.HasMsg? ==> s.poll.m == s.fetched - 1 && s.dropped.None?)
    && (s.dropped.Some? ==> s.poll.Ended? && s.dropped.value == s.fetched - 1)
  }

  /** A message below Taken is in one worker's hands or was handled once; the others in neither. */
  ghost predicate HandInv(s: State, m: nat)
  {
    && (forall v, w :: Holds(s, v, m) && Holds(s, w, m) ==> v == w)
    && (forall w :: Holds(s, w, m) ==> m < Taken(s) && Times(s, m) == 0)
    && (m < Taken(s) ==> Times(s, m) == 1 || exists w :: Holds(s, w, m))
    && Times(s, m) <= 1
    && (m >= Taken(s) ==> Times(s, m) == 0)
  }

  ghost predicate ExitInv(s: State)
  {
    && ((exists w :: 0 <= w < |s.workers| && s.workers[w].Exited?) ==> s.closed && s.jobs == [])
    && (s.stop.Graceful? ==> AllExited(s))
  }

  ghost predicate Inv(count: nat, s: State)
  {
    && |s.workers| == count
    && Ordered(s)
    && QueueInv(2 * count, s)
    && (forall m: nat :: HandInv(s, m))
    && ExitInv(s)
  }

  lemma HandsKept(s: State, t: State)
    requires s.workers == t.workers && s.handled == t.handled && Taken(t) == Taken(s)
    requires forall m: nat :: HandInv(s, m)
    ensures forall m: nat :: HandInv(t, m)
  {
    forall m: nat ensures HandInv(t, m) {
      assert HandInv(s, m);
      forall w ensures Holds(t, w, m) == Holds(s, w, m) {}
    }
  }

  lemma ReceiveKeeps(count: nat, s: State, w: nat)
    requires Inv(count, s) && w < count && s.workers[w].Idle?
    ensures Inv(count, Received(s, w))
  {
    var t := Received(s, w);
    if s.jobs != [] {
      assert Taken(t) == Taken(s) + 1;
      forall m: nat ensures HandInv(t, m) {
        assert HandInv(s, m);
        forall v | v != w ensures Holds(t, v, m) == Holds(s, v, m) {}
        assert Holds(t, w, m) <==> m == s.jobs[0];
        assert !Holds(s, w, m);
        if m < Taken(s) && Times(s, m) != 1 {
          var v :| Holds(s, v, m);
          assert Holds(t, v, m);
        }
      }
    } else if s.closed {
      forall m: nat ensures HandInv(t, m) {
        assert HandInv(s, m);
        forall v ensures Holds(t, v, m) == Holds(s, v, m) {}
      }
    }
  }

  lemma FinishKeeps(count: nat, s: State, w: nat)
    requires Inv(count, s) && w < count && s.workers[w].Handling?
    ensures Inv(count, Step(2 * count, s, Finish(w)))
  {
    var t := Step(2 * count, s, Finish(w));
    var k := s.workers[w].m;
    assert Holds(s, w, k);
    forall m: nat ensures HandInv(t, m) {
      assert HandInv(s, m);
      forall v | v != w ensures Holds(t, v, m) == Holds(s, v, m) {}
      assert !Holds(t, w, m);
      if m != k && m < Taken(s) && Times(s, m) != 1 {
        var v :| Holds(s, v, m);
        assert Holds(t, v, m);
      }
    }
  }

  lemma StepKeeps(count: nat, s: State, e: Event)
    requires Inv(count, s)
    ensures Inv(count, Step(2 * count, s, e))
  {
    var t := Step(2 * count, s, e);
    match e {
      case Receive(w) => if w < count && s.workers[w].Idle? { ReceiveKeeps(count, s, w); }
      case Finish(w) => if w < count && s.workers[w].Handling? { FinishKeeps(count, s, w); }
      case _ => HandsKept(s, t);
    }
  }

  lemma {:induction false} AlwaysInv(count: nat, run: seq<Event>)
    ensures Inv(count, Exec(count, run))
  {
    if run != [] {
      AlwaysInv(count, run[..|run| - 1]);
      StepKeeps(count, Exec(count, run[..|run| - 1]), run[|run| - 1]);
    } else {
      forall m: nat ensures HandInv(Start(count), m) {}
    }
  }

  /** The shutdown order works: in no interleaving does a send or a close hit a closed channel,
      and once the channel is closed poll has returned. */
  lemma NeverPanics(count: nat, run: seq<Event>)
    ensures !Exec(count, run).panicked
    ensures Exec(count, run).closed ==> Exec(count, run).poll.Ended?
  {
    AlwaysInv(count, run);
  }

  /** In every run, poll returns only once its context is cancelled, and Stop cancels it; poll goes on
      after every failed fetch before that. */
  lemma {:induction false} PollEndsOnlyWhenCancelled(count: nat, run: seq<Event>)
    ensures var s := Exec(count, run);
            && (s.poll.Ended? ==> s.cancelled)
            && (!s.stop.NotCalled? ==> s.cancelled)
            && (s.poll.Fetching? && !s.cancelled ==> Exec(count, run + [Fetch(false)]) == s)
            && (s.poll.Fetching? ==> Exec(count, run + [Fetch(true)]).poll == HasMsg(s.fetched))
  {
    assert (run + [Fetch(false)])[..|run|] == run && (run + [Fetch(true)])[..|run|] == run;
    if run != [] { PollEndsOnlyWhenCancelled(count, run[..|run| - 1]); }
  }

  function Ones(b: bool): nat
  {
    if b then 1 else 0
  }

  function Holders(s: State, m: nat): set<nat>
  {
    set w: nat | w < |s.workers| && s.workers[w] == Handling(m)
  }

  /** At every moment each fetched message is in exactly one place: handled once, in one worker's
      hands, in the channel, in poll's hands, or the single one dropped; and nothing else is
      anywhere. */
  lemma EachMessageInOnePlace(count: nat, run: seq<Event>, m: nat)
    ensures var s := Exec(count, run);
            Times(s, m) + |Holders(s, m)| + Ones(m in s.jobs) + Ones(s.poll == HasMsg(m)) + Ones(s.dropped == Some(m))
            == Ones(m < s.fetched)
    ensures multiset(Exec(count, run).jobs)[m] <= 1
  {
    AlwaysInv(count, run);
    var s := Exec(count, run);
    TakenOnce(s, m);
    if Taken(s) <= m < Taken(s) + |s.jobs| { assert s.jobs[m - Taken(s)] == m; }
    OnceInRange(s.jobs, Taken(s), m);
  }

  /** A message below Taken is handled once or in one worker's hands, any other is neither. */
  lemma TakenOnce(s: State, m: nat)
    requires HandInv(s, m)
    ensures Times(s, m) + |Holders(s, m)| == Ones(m < Taken(s))
  {
    if Holders(s, m) != {} {
      var w :| w in Holders(s, m);
      assert Holds(s, w, m);
      forall v | v in Holders(s, m) ensures v == w { assert Holds(s, v, m) && Holds(s, w, m); }
      assert Holders(s, m) == {w};
    } else {
      forall w ensures !Holds(s, w, m) { assert Holds(s, w, m) <==> w in Holders(s, m); }
    }
  }

  lemma {:induction false} OnceInRange(jobs: seq<nat>, from: int, m: nat)
    requires forall i :: 0 <= i < |jobs| ==> jobs[i] == from + i
    ensures multiset(jobs)[m] <= 1
  {
    if jobs != [] {
      var n := |jobs| - 1;
      assert jobs == jobs[..n] + [jobs[n]];
      OnceInRange(jobs[..n], from, m);
      assert m == jobs[n] ==> m !in jobs[..n];
    }
  }

  /** After a graceful drain every message ever dispatched was handled exactly once, and at most
      the last fetched one was not dispatched. */
  lemma GracefulDrainHandlesAll(count: nat, run: seq<Event>, m: nat)
    requires count > 0 && Exec(count, run).stop.Graceful? && m < Exec(count, run).fetched
    ensures var s := Exec(count, run);
            if s.dropped == Some(m) then m == s.fetched - 1 && Times(s, m) == 0 else Times(s, m) == 1
  {
    AlwaysInv(count, run);
    var s := Exec(count, run);
    assert s.workers[0].Exited?;
    TakenOnce(s, m);
    NoneHolds(s, m);
  }

  lemma NoneHolds(s: State, m: nat)
    requires AllExited(s)
    ensures Holders(s, m) == {}
  {
    forall w: nat | w < |s.workers| ensures s.workers[w] != Handling(m) { assert s.workers[w].Exited?; }
  }

  /** The workers receive the messages in the order they were fetched, with no gap. */
  lemma ReceivedInOrder(count: nat, run: seq<Event>)
    ensures var s := Exec(count, run);
            && |s.jobs| <= 2 * count
            && (forall i :: 0 <= i < |s.jobs| ==> s.jobs[i] == Taken(s) + i)
            && (forall m: nat :: m < Taken(s) <==> Reached(s, m))
  {
    AlwaysInv(count, run);
    var s := Exec(count, run);
    forall m: nat ensures m < Taken(s) <==> Reached(s, m) { assert HandInv(s, m); }
  }

  /** A worker has handled the message or holds it. */
  ghost predicate Reached(s: State, m: nat)
  {
    Times(s, m) == 1 || exists w :: Holds(s, w, m)
  }

  // ---- the object: one method per atomic operation of its goroutines

  class ConsumerPool {
    const count: nat
    var poll: Poll
    var cancelled: bool
    var jobs: seq<nat>
    var closed: bool
    var panicked: bool
    var workers: seq<Worker>
    var stop: Stop
    ghost var fetched: nat
    ghost var dropped: Option<nat>
    ghost var handled: map<nat, nat>

    constructor (workerCount: int)
      ensures count == if workerCount <= 0 then 1 else workerCount
      ensures Snapshot() == Start(count)
      ensures poll == Fetching && !cancelled && !closed && !panicked && jobs == [] && stop == NotCalled
      ensures |workers| == count && forall w :: 0 <= w < count ==> workers[w] == Idle
    {
      var n := if workerCount <= 0 then 1 else workerCount;
      count := n;
      poll, cancelled, jobs, closed, panicked, stop := Fetching, false, [], false, false, NotCalled;
      workers := seq(n, _ => Idle);
      fetched, dropped, handled := 0, None, map[];
    }

    ghost function Snapshot(): State
      reads this
    {
      State(poll, cancelled, jobs, closed, panicked, workers, stop, fetched, dropped, handled)
    }

    /** poll: FetchMessage, given the number of the next message. */
    method FetchMessage(ok: bool, next: nat)
      requires poll.Fetching? && next == fetched
      modifies this
      ensures Snapshot() == Step(2 * count, old(Snapshot()), Fetch(ok))
      ensures ok ==> poll == HasMsg(next) && fetched == next + 1
      ensures !ok ==> fetched == old(fetched) && poll == if cancelled then Ended else Fetching
      ensures cancelled == old(cancelled) && jobs == old(jobs) && closed == old(closed) && panicked == old(panicked)
      ensures workers == old(workers) && stop == old(stop) && dropped == old(dropped) && handled == old(handled)
    {
      if ok {
        poll := HasMsg(next);
        fetched := fetched + 1;
      } else if cancelled {
        poll := Ended;
      }
    }

    /** poll: the select between the send and ctx.Done; preferDone says which case Go
        picks when both are ready. The select blocks, so nothing changes, while neither is. */
    method Select(preferDone: bool)
      requires poll.HasMsg?
      modifies this
      ensures Snapshot() == Step(2 * count, old(Snapshot()),
                                 if old(cancelled) && (preferDone || (!old(closed) && |old(jobs)| >= 2 * count)) then Abandon else Send)
      ensures var done, full := old(cancelled), |old(jobs)| >= 2 * count;
              !old(closed) ==>
                && panicked == old(panicked)
                && (if done && (preferDone || full) then poll == Ended && dropped == Some(old(poll).m) && jobs == old(jobs)
                    else if full then poll == old(poll) && dropped == old(dropped) && jobs == old(jobs)
                    else poll == Fetching && dropped == old(dropped) && jobs == old(jobs) + [old(poll).m])
      ensures workers == old(workers) && stop == old(stop) && handled == old(handled) && fetched == old(fetched)
      ensures cancelled == old(cancelled) && closed == old(closed)
    {
      if cancelled && (preferDone || (!closed && |jobs| >= 2 * count)) {
        dropped := Some(poll.m);
        poll := Ended;
      } else if closed {
        panicked := true;
      } else if |jobs| < 2 * count {
        jobs, poll := jobs + [poll.m], Fetching;
      }
    }

    /** worker: one receive of the range loop. */
    method Next(w: nat)
      requires w < |workers| && workers[w].Idle?
      modifies this
      ensures Snapshot() == Step(2 * count, old(Snapshot()), Receive(w))
      ensures old(jobs) != [] ==> workers == old(workers)[w := Handling(old(jobs)[0])] && jobs == old(jobs)[1..]
      ensures old(jobs) == [] ==> jobs == [] && workers == if closed then old(workers)[w := Exited] else old(workers)
      ensures poll == old(poll) && handled == old(handled) && closed == old(closed) && stop == old(stop)
    {
      if |jobs| > 0 {
        workers := workers[w := Handling(jobs[0])];
        jobs := jobs[1..];
      } else if closed {
        workers := workers[w := Exited];
      }
    }

    /** worker: the handler returned. */
    method Handled(w: nat)
      requires w < |workers| && workers[w].Handling?
      modifies this
      ensures Snapshot() == Step(2 * count, old(Snapshot()), Finish(w))
      ensures workers == old(workers)[w := Idle] && jobs == old(jobs) && poll == old(poll)
      ensures var m := old(workers)[w].m;
              handled == old(handled)[m := 1 + if m in old(handled) then old(handled)[m] else 0]
    {
      ghost var m := workers[w].m;
      handled := handled[m := (if m in handled then handled[m] else 0) + 1];
      workers := workers[w := Idle];
    }

    /** stopImpl, up to the wait for poll; a second call of Stop does nothing. */
    method CancelPoll()
      modifies this
      ensures Snapshot() == Step(2 * count, old(Snapshot()), StopCancel)
      ensures if old(stop) == NotCalled then stop == Cancelled && cancelled else stop == old(stop) && cancelled == old(cancelled)
      ensures poll == old(poll) && jobs == old(jobs) && closed == old(closed) && workers == old(workers)
    {
      if stop.NotCalled? { stop, cancelled := Cancelled, true; }
    }

    /** stopImpl, from the return of pollWg.Wait through close(jobs). */
    method CloseJobs()
      requires stop.Cancelled? && poll.Ended?
      modifies this
      ensures Snapshot() == Step(2 * count, Step(2 * count, old(Snapshot()), StopWait), StopClose)
      ensures closed && (panicked <==> old(panicked) || old(closed)) && (!old(closed) ==> stop == Closed)
      ensures jobs == old(jobs) && workers == old(workers) && poll == old(poll)
    {
      stop := PollGone;
      if closed {
        panicked := true;
      } else {
        stop, closed := Closed, true;
      }
    }

    /** stopImpl: the final select, between wg.Wait and the caller's deadline. */
    method AwaitDrain(expired: bool) returns (graceful: bool)
      requires stop.Closed? && (expired || AllExited(Snapshot()))
      modifies this
      ensures Snapshot() == Step(2 * count, old(Snapshot()), if graceful then StopDrained else StopTimeout)
      ensures graceful ==> forall w :: 0 <= w < |workers| ==> workers[w] == Exited
      ensures (graceful <==> !expired) && stop == (if graceful then Graceful else TimedOut)
      ensures jobs == old(jobs) && workers == old(workers) && closed == old(closed)
    {
      graceful := !expired;
      stop := if graceful then Graceful else TimedOut;
    }
  }
}
