/** Admission and shutdown of an agent worker (pkg/agent/codex/worker.go:348-413) after its one
    Start. A session holds the wait group from admit to its end; Stop takes the container away,
    waits for the sessions or its deadline, and removes the container. Each critical section,
    wait-group operation and container command is one step. */
module AgentWorker {
  import opened Strings

  datatype Stopping =
    | Waiting(container: nat)
    | Removing(container: nat, drained: bool)   // drained: the wait ended, not the deadline

  datatype State = State(
    container: Option<nat>,
    stopping: bool,
    sessions: set<nat>,            // admitted and not done: the wait group's counter
    stops: map<nat, Stopping>,     // calls of Stop under way
    waiters: set<nat>,             // their goroutines still inside wg.Wait
    removed: set<nat>,
    // histories
    left: set<nat>,                // Stops that failed to remove while their own wait was pending, and still is
    addedWhileWaiting: bool,       // wg.Add while a wg.Wait was pending
    cutOff: set<nat>)              // sessions whose container was removed under them

  datatype Event =
    | Admit(session: nat)
    | Done(session: nat)
    | StopBegin(call: nat)
    | WaitReturns(call: nat)
    | Drained(call: nat)
    | Deadline(call: nat)
    | Remove(call: nat, ok: bool)

  const Started := State(Some(0), false, {}, map[], {}, {}, {}, false, {})

  predicate CanAdmit(s: State)
  {
    !s.stopping && s.container.Some?
  }

  function Removed(s: State, call: nat): State
    requires call in s.stops && s.stops[call].Removing?
  {
    s.(stops := s.stops - {call}, removed := s.removed + {s.stops[call].container}, cutOff := s.cutOff + s.sessions)
  }

  /** The container stays and the worker goes back into service. */
  function NotRemoved(s: State, call: nat): State
    requires call in s.stops && s.stops[call].Removing?
  {
    s.(stops := s.stops - {call}, stopping := false,
       left := if call in s.waiters then s.left + {call} else s.left,
       container := if s.container.None? then Some(s.stops[call].container) else s.container)
  }

  function Step(s: State, e: Event): State
  {
    match e
    case Admit(i) =>
      if CanAdmit(s) && i !in s.sessions then
        s.(sessions := s.sessions + {i}, addedWhileWaiting := s.addedWhileWaiting || s.waiters != {})
      else s
    case Done(i) => s.(sessions := s.sessions - {i})
    case StopBegin(k) =>
      if s.container.Some? && k !in s.stops && k !in s.waiters then
        s.(container := None, stopping := true, stops := s.stops[k := Waiting(s.container.value)], waiters := s.waiters + {k})
      else s
    case WaitReturns(k) => if s.sessions == {} then s.(waiters := s.waiters - {k}, left := s.left - {k}) else s
    case Drained(k) =>
      if k in s.stops && s.stops[k].Waiting? && k !in s.waiters then
        s.(stops := s.stops[k := Removing(s.stops[k].container, true)])
      else s
    case Deadline(k) =>
      if k in s.stops && s.stops[k].Waiting? then s.(stops := s.stops[k := Removing(s.stops[k].container, false)]) else s
    case Remove(k, ok) =>
      if k in s.stops && s.stops[k].Removing? then (if ok then Removed(s, k) else NotRemoved(s, k)) else s
  }

  function Exec(run: seq<Event>): State
  {
    if run == [] then Started else Step(Exec(run[..|run| - 1]), run[|run| - 1])
  }

  predicate Past(s: State, k: nat)
  {
    k in s.stops && (s.stops[k].Removing? ==> s.stops[k].drained) && k !in s.waiters
  }

  /** A Stop under way has taken the container, so nothing is admitted beside it. */
  ghost predicate Exclusive(s: State)
  {
    && (forall k :: k in s.stops ==> s.stopping && s.container.None? && s.stops[k].container !in s.removed)
    && (forall j, k :: j in s.stops && k in s.stops ==> j == k)
    && (s.container.Some? ==> s.container.value !in s.removed)
  }

  ghost predicate Inv(s: State)
  {
    && Exclusive(s)
    && (forall k :: Past(s, k) ==> s.sessions == {})
    && (forall k :: k in s.stops && s.stops[k].Removing? && s.stops[k].drained ==> k !in s.waiters)
    && s.left <= s.waiters
    && (s.container.Some? ==> s.waiters == s.left)
    && (forall k :: k in s.stops ==> k !in s.left)
    && (forall k :: k in s.waiters && s.stops != map[] ==> k in s.stops || k in s.left)
  }

  lemma StepKeeps(s: State, e: Event)
    requires Inv(s)
    ensures Inv(Step(s, e))
  {
    var t := Step(s, e);
    forall k | Past(t, k) ensures t.sessions == {} {
      assert Past(s, k) ==> s.sessions == {};
    }
    if e.Remove? && t != s { forall k ensures k !in t.stops {} }
  }

  lemma {:induction false} AlwaysInv(run: seq<Event>)
    ensures Inv(Exec(run))
  {
    if run != [] {
      AlwaysInv(run[..|run| - 1]);
      StepKeeps(Exec(run[..|run| - 1]), run[|run| - 1]);
    }
  }

  /** A session is admitted while the wait of a Stop that failed to remove is still pending. */
  predicate AdmitsBeside(s: State, e: Event)
  {
    e.Admit? && CanAdmit(s) && e.session !in s.sessions && s.left != {}
  }

  ghost predicate NeverBeside(run: seq<Event>)
  {
    forall i :: 0 <= i < |run| ==> !AdmitsBeside(Exec(run[..i]), run[i])
  }

  /** In every run of sessions and Stop calls, a session is added to the wait group beside a pending
      wait if and only if one is admitted while a Stop whose removal failed has its own wait still
      pending. No other Stop, whether it drained, met its deadline or failed, leaves a wait an
      admission could meet. */
  lemma {:induction false} AddBesideWaitExactly(run: seq<Event>)
    ensures Exec(run).addedWhileWaiting <==> !NeverBeside(run)
  {
    if run != [] {
      var before, e := run[..|run| - 1], run[|run| - 1];
      assert run == before + [e];
      AddBesideWaitExactly(before);
      AlwaysInv(before);
      FlagStep(Exec(before), e);
      BesideOneMore(before, e);
    }
  }

  lemma FlagStep(s: State, e: Event)
    requires Inv(s)
    ensures Step(s, e).addedWhileWaiting <==> s.addedWhileWaiting || AdmitsBeside(s, e)
  {
  }

  lemma BesideOneMore(run: seq<Event>, e: Event)
    ensures NeverBeside(run + [e]) <==> NeverBeside(run) && !AdmitsBeside(Exec(run), e)
  {
    var all := run + [e];
    forall i | 0 <= i <= |run| ensures all[..i] == run[..i] {}
    assert run[..|run|] == run && all[|run|] == e;
    if NeverBeside(all) {
      assert !AdmitsBeside(Exec(all[..|run|]), all[|run|]);
      forall i | 0 <= i < |run| ensures !AdmitsBeside(Exec(run[..i]), run[i]) {
        assert !AdmitsBeside(Exec(all[..i]), all[i]);
      }
    }
  }

  /** A Stop that ended by draining removes the container from under no session, and no session is
      ever admitted to a removed container. */
  lemma DrainedStopCutsOffNobody(run: seq<Event>, call: nat)
    requires var s := Exec(run); call in s.stops && s.stops[call].Removing? && s.stops[call].drained
    ensures Step(Exec(run), Remove(call, true)).cutOff == Exec(run).cutOff
  {
    AlwaysInv(run);
    assert Past(Exec(run), call);
  }

  lemma AdmittedToLiveContainer(run: seq<Event>)
    ensures CanAdmit(Exec(run)) ==> Exec(run).container.value !in Exec(run).removed && Exec(run).stops == map[]
  {
    AlwaysInv(run);
    var s := Exec(run);
    if CanAdmit(s) {
      forall k ensures k !in s.stops {}
    }
  }

  /** After a failed removal the worker serves again, with the container it had. */
  lemma FailedStopRestores(run: seq<Event>, call: nat)
    requires var s := Exec(run); call in s.stops && s.stops[call].Removing?
    ensures var s, t := Exec(run), Step(Exec(run), Remove(call, false));
            CanAdmit(t) && t.container == Some(s.stops[call].container) && t.stops == map[]
  {
    AlwaysInv(run);
    var t := Step(Exec(run), Remove(call, false));
    assert forall k :: k !in t.stops;
  }

  lemma ExecLast(run: seq<Event>, e: Event)
    ensures Exec(run + [e]) == Step(Exec(run), e)
  {
    assert (run + [e])[..|run|] == run;
  }

  /** The exception is real: a session outlives the deadline, the removal fails, and the next
      session is added while the first Stop's goroutine still waits. */
  lemma ForcedStopMeetsItsWaiter(a: nat, b: nat, call: nat)
    requires a != b
    ensures Exec([Admit(a), StopBegin(call), Deadline(call), Remove(call, false), Admit(b)]).addedWhileWaiting
  {
    var s1, s2 := Step(Started, Admit(a)), Step(Step(Started, Admit(a)), StopBegin(call));
    ExecLast([], Admit(a));
    ExecLast([Admit(a)], StopBegin(call));
    ExecLast([Admit(a), StopBegin(call)], Deadline(call));
    ExecLast([Admit(a), StopBegin(call), Deadline(call)], Remove(call, false));
    ExecLast([Admit(a), StopBegin(call), Deadline(call), Remove(call, false)], Admit(b));
    assert [] + [Admit(a)] == [Admit(a)];
    assert [Admit(a)] + [StopBegin(call)] == [Admit(a), StopBegin(call)];
    assert [Admit(a), StopBegin(call)] + [Deadline(call)] == [Admit(a), StopBegin(call), Deadline(call)];
    assert [Admit(a), StopBegin(call), Deadline(call)] + [Remove(call, false)]
        == [Admit(a), StopBegin(call), Deadline(call), Remove(call, false)];
    assert [Admit(a), StopBegin(call), Deadline(call), Remove(call, false)] + [Admit(b)]
        == [Admit(a), StopBegin(call), Deadline(call), Remove(call, false), Admit(b)];
    assert call in s2.waiters && s1.sessions == {a};
  }

  // ---- the object: one method per critical section

  class Worker {
    var container: Option<nat>
    var stopping: bool
    var sessions: set<nat>

    /** The state right after Start. */
    constructor (id: nat)
      ensures container == Some(id) && !stopping && sessions == {}
    {
      container, stopping, sessions := Some(id), false, {};
    }

    /** None is the not-started error. */
    method Admit(session: nat) returns (id: Option<nat>)
      requires session !in sessions
      modifies this`sessions
      ensures id.Some? <==> !stopping && container.Some?
      ensures id.Some? ==> id == container
      ensures sessions == if id.Some? then old(sessions) + {session} else old(sessions)
    {
      if stopping || container.None? { return None; }
      sessions := sessions + {session};
      id := container;
    }

    /** The first critical section of Stop; None means already stopped. */
    method TakeContainer() returns (id: Option<nat>)
      modifies this`container, this`stopping
      ensures id == old(container) && container == None
      ensures stopping == (old(stopping) || id.Some?)
    {
      id := container;
      if id.None? { return; }
      stopping, container := true, None;
    }

    /** The last one, after the container command. */
    method Conclude(id: nat, ok: bool)
      modifies this`container, this`stopping
      ensures ok ==> container == old(container) && stopping == old(stopping)
      ensures !ok ==> !stopping && container == if old(container).None? then Some(id) else old(container)
    {
      if ok { return; }
      if container.None? { container := Some(id); }
      stopping := false;
    }
  }
}
