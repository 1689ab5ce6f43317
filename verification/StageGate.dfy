/** StageGate = semaphore + processing lock (internal/locks/stage_gate.go), at the granularity
    of the semaphore's atomic operations and the lock's Redis commands. */
module StageGate {
  import opened Sets
  import opened Strings
  import Sem = Semaphore
  import L = TokenLocks

  datatype Outcome = Refused | Skipped | LockFailed | Released(owned: bool) | ReleaseFailed

  /** Where a call goes once the semaphore's Release has returned. */
  datatype After = Finish(outcome: Outcome) | ThenUnlock(token: string)

  datatype Phase =
    | Waiting                    // blocked in the semaphore
    | Acquiring                  // permit taken, not counted yet
    | Locking                    // counted, lock not tried yet
    | Inside(token: string)      // release closure handed out, not called yet
    | Returning(after: After)    // in the semaphore's Release
    | Unlocking(token: string)   // permit given back, lock release still to come
    | Ended(outcome: Outcome)

  datatype Call = Call(key: string, phase: Phase, granted: nat, returned: nat)

  datatype State = State(sem: Sem.State, locks: L.Locks, calls: map<nat, Call>)

  /** What the client sees of a lock command: its reply, or an error after which Redis may or
      may not have run it. */
  datatype Reply = Answered | Lost(applied: bool)

  datatype Event =
    | Tick(elapsed: nat)
    | Arrive(id: nat, key: string)
    | Cancel(id: nat)
    | TakePermit(id: nat)
    | Count(id: nat)
    | TryLock(id: nat, token: string, ttl: nat, reply: Reply)
    | CallRelease(id: nat)       // of the closure; any number of times, from any goroutine
    | Load(id: nat)
    | Swap(id: nat)
    | GiveBack(id: nat)
    | Unlock(id: nat, reply: Reply)

  function Start(capacity: nat): State
  {
    State(Sem.Start(capacity), L.Empty, map[])
  }

  function To(s: State, i: nat, phase: Phase): State
    requires i in s.calls
  {
    s.(calls := s.calls[i := s.calls[i].(phase := phase)])
  }

  /** The call enters the semaphore's Release. */
  function Return(s: State, i: nat, after: After): State
    requires i in s.calls
  {
    To(s.(sem := Sem.Step(s.sem, Sem.CallRelease(i))), i, Returning(after))
  }

  /** One atomic operation inside the semaphore's Release; leaving it moves the call on. */
  function ReleaseOp(s: State, i: nat, op: Sem.Event): State
  {
    if i in s.calls && s.calls[i].phase.Returning? then
      var sem := Sem.Step(s.sem, op);
      var s' := s.(sem := sem);
      var gave := if op.GiveBack? && i !in sem.threads then 1 else 0;
      var s'' := s'.(calls := s'.calls[i := s'.calls[i].(returned := s'.calls[i].returned + gave)]);
      if i in sem.threads then s''
      else match s.calls[i].phase.after
        case Finish(outcome) => To(s'', i, Ended(outcome))
        case ThenUnlock(token) => To(s'', i, Unlocking(token))
    else s
  }

  function LockStep(s: State, i: nat, token: string, ttl: nat, reply: Reply): State
    requires i in s.calls && L.Fresh(s.locks, token, ttl)
  {
    var key := s.calls[i].key;
    var free := !L.Present(s.locks, key);
    var run := s.(locks := L.Step(s.locks, L.SetNX(key, token, ttl)));
    match reply
    case Lost(applied) => Return(if applied then run else s, i, Finish(LockFailed))
    case Answered => if free then To(run, i, Inside(token)) else Return(run, i, Finish(Skipped))
  }

  function UnlockStep(s: State, i: nat, token: string, reply: Reply): State
    requires i in s.calls
  {
    var key := s.calls[i].key;
    var owned := L.Owns(s.locks, key, token);
    var run := s.(locks := L.Step(s.locks, L.CompareAndDelete(key, token)));
    match reply
    case Lost(applied) => To(if applied then run else s, i, Ended(ReleaseFailed))
    case Answered => To(run, i, Ended(Released(owned)))
  }

  function Step(s: State, e: Event): State
  {
    match e
    case Tick(d) => s.(locks := L.Step(s.locks, L.Tick(d)))
    case Arrive(i, key) =>
      if i !in s.calls then s.(calls := s.calls[i := Call(key, Waiting, 0, 0)]) else s
    case Cancel(i) =>
      if i in s.calls && s.calls[i].phase.Waiting? then To(s, i, Ended(Refused)) else s
    case TakePermit(i) =>
      if i in s.calls && s.calls[i].phase.Waiting? && s.sem.held < s.sem.capacity then
        var s' := s.(sem := Sem.Step(s.sem, Sem.Acquire(i)));
        s'.(calls := s'.calls[i := s'.calls[i].(phase := Acquiring, granted := s'.calls[i].granted + 1)])
      else s
    case Count(i) =>
      if i in s.calls && s.calls[i].phase.Acquiring? then
        To(s.(sem := Sem.Step(s.sem, Sem.Add(i))), i, Locking)
      else s
    case TryLock(i, token, ttl, reply) =>
      if i in s.calls && s.calls[i].phase.Locking? && L.Fresh(s.locks, token, ttl)
      then LockStep(s, i, token, ttl, reply) else s
    case CallRelease(i) =>
      if i in s.calls && s.calls[i].phase.Inside?
      then Return(s, i, ThenUnlock(s.calls[i].phase.token)) else s
    case Load(i) => ReleaseOp(s, i, Sem.Load(i))
    case Swap(i) => ReleaseOp(s, i, Sem.Swap(i))
    case GiveBack(i) => ReleaseOp(s, i, Sem.GiveBack(i))
    case Unlock(i, reply) =>
      if i in s.calls && s.calls[i].phase.Unlocking?
      then UnlockStep(s, i, s.calls[i].phase.token, reply) else s
  }

  function Exec(capacity: nat, run: seq<Event>): State
  {
    if run == [] then Start(capacity) else Step(Exec(capacity, run[..|run| - 1]), run[|run| - 1])
  }

  // ---- permits

  /** The call has a permit that inFlight counts. */
  predicate Counted(s: State, i: nat)
  {
    i in s.calls &&
    match s.calls[i].phase
    case Locking => true
    case Inside(_) => true
    case Returning(_) => i in s.sem.threads && s.sem.threads[i] != Sem.Swapped
    case _ => false
  }

  predicate HoldsPermit(s: State, i: nat)
  {
    i in s.calls && match s.calls[i].phase
                    case Acquiring => true
                    case Locking => true
                    case Inside(_) => true
                    case Returning(_) => true
                    case _ => false
  }

  ghost function CountedCalls(s: State): set<nat>
  {
    set i | i in s.calls && Counted(s, i)
  }

  ghost function Holders(s: State): set<nat>
  {
    set i | i in s.calls && HoldsPermit(s, i)
  }

  /** The phase of a call and its place inside the semaphore agree. */
  predicate Agrees(s: State, i: nat)
  {
    && (i in s.sem.threads ==> i in s.calls)
    && (i in s.calls ==>
          var c := s.calls[i];
          && (c.phase.Acquiring? <==> Sem.At(s.sem, i, Sem.Adding))
          && (c.phase.Returning? <==> i in s.sem.threads && s.sem.threads[i] != Sem.Adding)
          && c.granted <= 1 && (c.phase.Waiting? ==> c.granted == 0)
          && c.granted == c.returned + if HoldsPermit(s, i) then 1 else 0)
  }

  ghost predicate PermitInv(s: State)
  {
    && Sem.Inv(s.sem)
    && s.sem.inFlight == |CountedCalls(s)|
    && s.sem.held == |Holders(s)|
    && (forall i :: Agrees(s, i))
  }

  /** The only call an event touches. */
  function Touched(e: Event): Option<nat>
  {
    if e.Tick? then None else Some(e.id)
  }

  lemma OnlyOneMoves(s: State, e: Event, j: nat)
    requires Touched(e) != Some(j)
    ensures var t := Step(s, e);
            && (j in t.calls <==> j in s.calls) && (j in s.calls ==> t.calls[j] == s.calls[j])
            && (j in t.sem.threads <==> j in s.sem.threads)
            && (j in s.sem.threads ==> t.sem.threads[j] == s.sem.threads[j])
  {
  }

  lemma CountStep(s: State, e: Event)
    requires !e.Tick?
    ensures var t, i := Step(s, e), e.id;
            && |CountedCalls(t)| == |CountedCalls(s)| + (if Counted(t, i) then 1 else 0) - (if Counted(s, i) then 1 else 0)
            && |Holders(t)| == |Holders(s)| + (if HoldsPermit(t, i) then 1 else 0) - (if HoldsPermit(s, i) then 1 else 0)
  {
    var t := Step(s, e);
    forall j | j != e.id
      ensures (j in CountedCalls(t) <==> j in CountedCalls(s)) && (j in Holders(t) <==> j in Holders(s))
    {
      OnlyOneMoves(s, e, j);
    }
    Toggle(CountedCalls(s), CountedCalls(t), e.id);
    Toggle(Holders(s), Holders(t), e.id);
  }

  lemma SemStep(s: State, e: Event)
    requires Sem.Inv(s.sem)
    ensures Sem.Inv(Step(s, e).sem)
  {
    match e
    case TakePermit(i) => Sem.StepInv(s.sem, Sem.Acquire(i));
    case Count(i) => Sem.StepInv(s.sem, Sem.Add(i));
    case TryLock(i, _, _, _) => Sem.StepInv(s.sem, Sem.CallRelease(i));
    case CallRelease(i) => Sem.StepInv(s.sem, Sem.CallRelease(i));
    case Load(i) => Sem.StepInv(s.sem, Sem.Load(i));
    case Swap(i) => Sem.StepInv(s.sem, Sem.Swap(i));
    case GiveBack(i) => Sem.StepInv(s.sem, Sem.GiveBack(i));
    case _ =>
  }

  /** While this call is counted, inFlight is positive, so its Release never takes the branch
      that returns without giving the permit back. */
  ghost predicate OwnAccount(s: State, t: State, i: nat)
  {
    && Agrees(t, i)
    && t.sem.inFlight == s.sem.inFlight + (if Counted(t, i) then 1 else 0) - (if Counted(s, i) then 1 else 0)
    && t.sem.held == s.sem.held + (if HoldsPermit(t, i) then 1 else 0) - (if HoldsPermit(s, i) then 1 else 0)
  }

  lemma OwnRelease(s: State, e: Event)
    requires (e.Load? || e.Swap? || e.GiveBack?) && Agrees(s, e.id)
    requires Counted(s, e.id) ==> s.sem.inFlight >= 1
    ensures OwnAccount(s, Step(s, e), e.id)
  {
  }

  lemma OwnLock(s: State, e: Event)
    requires (e.TryLock? || e.CallRelease?) && Agrees(s, e.id)
    ensures OwnAccount(s, Step(s, e), e.id)
  {
  }

  lemma OwnOther(s: State, e: Event)
    requires !e.Tick? && !e.Load? && !e.Swap? && !e.GiveBack? && !e.TryLock? && !e.CallRelease? && Agrees(s, e.id)
    ensures OwnAccount(s, Step(s, e), e.id)
  {
  }

  lemma OwnStep(s: State, e: Event)
    requires !e.Tick? && Agrees(s, e.id)
    requires Counted(s, e.id) ==> s.sem.inFlight >= 1
    ensures OwnAccount(s, Step(s, e), e.id)
  {
    if e.Load? || e.Swap? || e.GiveBack? {
      OwnRelease(s, e);
    } else if e.TryLock? || e.CallRelease? {
      OwnLock(s, e);
    } else {
      OwnOther(s, e);
    }
  }

  lemma PermitStep(s: State, e: Event)
    requires PermitInv(s)
    ensures PermitInv(Step(s, e))
  {
    var t := Step(s, e);
    if e.Tick? {
      assert CountedCalls(t) == CountedCalls(s) && Holders(t) == Holders(s);
      forall j ensures Agrees(t, j) { assert Agrees(s, j); }
    } else {
      var i := e.id;
      CountStep(s, e);
      assert Agrees(s, i);
      if Counted(s, i) { assert i in CountedCalls(s); }
      OwnStep(s, e);
      SemStep(s, e);
      forall j | j != i ensures Agrees(t, j) {
        OnlyOneMoves(s, e, j);
        assert Agrees(s, j);
      }
    }
  }

  /** In every interleaving: each call took at most one permit and gave it back at most once,
      the permits out are exactly the calls that still hold one, never more than capacity, and
      the semaphore never panics. So once every call is over, every permit is back, whether it
      ended in a lock error, a skip, or any number of calls of the release closure. */
  lemma {:induction false} NoPermitLostOrDoubled(capacity: nat, run: seq<Event>)
    ensures var s := Exec(capacity, run);
            && PermitInv(s) && s.sem.held <= s.sem.capacity && !s.sem.panicked
            && (forall i :: i in s.calls ==> s.calls[i].returned <= s.calls[i].granted <= 1)
            && ((forall i :: i in s.calls ==> s.calls[i].phase.Ended?) ==> s.sem.held == 0 == s.sem.inFlight)
  {
    var s := Exec(capacity, run);
    if run == [] {
      assert CountedCalls(s) == {} && Holders(s) == {};
      Sem.PermitsAccountedFor(capacity, []);
    } else {
      NoPermitLostOrDoubled(capacity, run[..|run| - 1]);
      PermitStep(Exec(capacity, run[..|run| - 1]), run[|run| - 1]);
    }
    forall i | i in s.calls ensures s.calls[i].returned <= s.calls[i].granted <= 1 {
      assert Agrees(s, i);
    }
    if forall i :: i in s.calls ==> s.calls[i].phase.Ended? {
      assert Holders(s) == {} && CountedCalls(s) == {};
    }
  }

  // ---- locks

  /** The lock token the call answers for, until its release has run. */
  function TokenOf(s: State, i: nat): Option<string>
  {
    if i !in s.calls then None
    else match s.calls[i].phase
      case Inside(token) => Some(token)
      case Returning(ThenUnlock(token)) => Some(token)
      case Unlocking(token) => Some(token)
      case _ => None
  }

  ghost predicate LockInv(s: State)
  {
    && L.Consistent(s.locks)
    && (forall i :: TokenOf(s, i).Some? ==>
          var t := TokenOf(s, i).value; t in s.locks.taken && s.locks.taken[t].key == s.calls[i].key)
    && (forall i, j :: TokenOf(s, i).Some? && TokenOf(s, i) == TokenOf(s, j) ==> i == j)
  }

  lemma LocksStep(s: State, e: Event)
    requires L.Consistent(s.locks)
    ensures L.Consistent(Step(s, e).locks)
    ensures forall t :: t in s.locks.taken ==>
              t in Step(s, e).locks.taken && Step(s, e).locks.taken[t].key == s.locks.taken[t].key
  {
    match e
    case Tick(d) => L.StepConsistent(s.locks, L.Tick(d));
    case TryLock(i, token, ttl, _) =>
      if i in s.calls { L.StepConsistent(s.locks, L.SetNX(s.calls[i].key, token, ttl)); }
    case Unlock(i, _) =>
      if i in s.calls && s.calls[i].phase.Unlocking? {
        L.StepConsistent(s.locks, L.CompareAndDelete(s.calls[i].key, s.calls[i].phase.token));
      }
    case _ =>
  }

  /** A call's token is the one it had, or a token new to everybody. */
  lemma TokenStep(s: State, e: Event, i: nat)
    requires TokenOf(Step(s, e), i).Some?
    ensures var t, token := Step(s, e), TokenOf(Step(s, e), i);
            && i in s.calls && t.calls[i].key == s.calls[i].key
            && (TokenOf(s, i) == token
                || (e.TryLock? && e.id == i && token.value == e.token && e.token !in s.locks.taken
                    && e.token in t.locks.taken && t.locks.taken[e.token].key == s.calls[i].key))
  {
    if Touched(e) != Some(i) {
      OnlyOneMoves(s, e, i);
    } else {
      match e
      case TryLock(_, _, _, _) =>
      case Unlock(_, _) =>
      case _ =>
    }
  }

  lemma LockInvStep(s: State, e: Event)
    requires LockInv(s)
    ensures LockInv(Step(s, e))
  {
    LocksStep(s, e);
    var t := Step(s, e);
    forall i | TokenOf(t, i).Some?
      ensures var tok := TokenOf(t, i).value; tok in t.locks.taken && t.locks.taken[tok].key == t.calls[i].key
    {
      TokenStep(s, e, i);
    }
    forall i, j | TokenOf(t, i).Some? && TokenOf(t, i) == TokenOf(t, j) ensures i == j {
      TokenStep(s, e, i);
      TokenStep(s, e, j);
    }
  }

  /** Two workers inside one stage on one URL, both within the lock's TTL, are the same call. */
  lemma {:induction false} OneWorkerPerUrl(capacity: nat, run: seq<Event>, i: nat, j: nat)
    ensures var s := Exec(capacity, run);
            && LockInv(s)
            && (TokenOf(s, i).Some? && TokenOf(s, j).Some? && s.calls[i].key == s.calls[j].key
                && L.InForce(s.locks, TokenOf(s, i).value) && L.InForce(s.locks, TokenOf(s, j).value)
                ==> i == j)
  {
    if run != [] {
      OneWorkerPerUrl(capacity, run[..|run| - 1], i, j);
      LockInvStep(Exec(capacity, run[..|run| - 1]), run[|run| - 1]);
    }
  }

  // ---- the object, one goroutine at a time

  /** The release closure: it captures the key, the token and a flag flipped once. */
  class Ticket {
    const gate: Gate
    const key: string
    const token: string
    var released: bool

    constructor (gate: Gate, key: string, token: string)
      ensures this.gate == gate && this.key == key && this.token == token && !released
    {
      this.gate, this.key, this.token, this.released := gate, key, token, false;
    }

    method Release(lost: bool, applied: bool) returns (err: L.LockError)
      requires gate.Valid() && (!released ==> token != "" && gate.sem.inFlight > 0)
      modifies this, gate.sem, gate.lock.redis
      ensures gate.Valid() && released
      ensures old(released) ==>
                err == L.NoError && gate.sem.inFlight == old(gate.sem.inFlight) && gate.lock.redis.db == old(gate.lock.redis.db)
      ensures !old(released) ==> gate.sem.inFlight == old(gate.sem.inFlight) - 1
      ensures !old(released) && (!lost || applied) ==>
                gate.lock.redis.db == L.Step(old(gate.lock.redis.db), L.CompareAndDelete(key, token))
      ensures !old(released) && !lost ==>
                err == if L.Owns(old(gate.lock.redis.db), key, token) then L.NoError else L.NotOwned
      ensures !old(released) && lost ==> err == L.Infrastructure
      ensures !old(released) && lost && !applied ==> gate.lock.redis.db == old(gate.lock.redis.db)
    {
      if released { return L.NoError; }
      released := true;
      gate.sem.Release();
      err := gate.lock.Release(key, token, lost, applied);
    }
  }

  class Gate {
    const stage: string
    const sem: Sem.WeightedSemaphore
    const lock: L.ProcessingLock
    const hash: string -> string

    ghost predicate Valid() reads sem
    {
      sem.Valid() && lock.ttl > 0
    }

    constructor (stage: string, sem: Sem.WeightedSemaphore, lock: L.ProcessingLock, hash: string -> string)
      requires stage != "" && sem.Valid() && lock.ttl > 0
      ensures Valid() && this.stage == stage && this.sem == sem && this.lock == lock && this.hash == hash
    {
      this.stage, this.sem, this.lock, this.hash := stage, sem, lock, hash;
    }

    /** ticket is null unless the caller may proceed; every other path returns the permit. */
    method Acquire(url: string, random: Option<string>, lost: bool, applied: bool)
      returns (ticket: Ticket?, refused: bool, err: L.LockError)
      requires Valid()
      requires random.Some? ==> L.Fresh(lock.redis.db, random.value, lock.ttl)
      modifies sem, lock.redis
      ensures Valid()
      ensures refused <==> old(sem.inFlight) == sem.capacity
      ensures refused ==> ticket == null && err == L.NoError && lock.redis.db == old(lock.redis.db)
      ensures !refused ==> err == if random.None? then L.TokenFailure else if lost then L.Infrastructure else L.NoError
      ensures !refused && random.Some? && (!lost || applied) ==>
                lock.redis.db == L.Step(old(lock.redis.db), L.SetNX(L.ProcessingKey(hash, stage, url), random.value, lock.ttl))
      ensures random.None? || (lost && !applied) ==> lock.redis.db == old(lock.redis.db)
      ensures ticket != null <==>
                !refused && err == L.NoError && !L.Present(old(lock.redis.db), L.ProcessingKey(hash, stage, url))
      ensures ticket != null ==>
                fresh(ticket) && ticket.gate == this && !ticket.released
                && ticket.key == L.ProcessingKey(hash, stage, url) && random.Some? && ticket.token == random.value
                && L.InForce(lock.redis.db, ticket.token) && lock.redis.db.taken[ticket.token].key == ticket.key
      ensures sem.inFlight == old(sem.inFlight) + if ticket != null then 1 else 0
    {
      ticket, refused, err := null, false, L.NoError;
      var ok := sem.Acquire();
      if !ok {
        refused := true;
        return;
      }
      var key := L.ProcessingKey(hash, stage, url);
      var token, acquired, lockErr := lock.Acquire(key, random, lost, applied);
      if lockErr != L.NoError {
        sem.Release();
        err := lockErr;
        return;
      }
      if !acquired {
        sem.Release();
        return;
      }
      ticket := new Ticket(this, key, token);
    }
  }
}
