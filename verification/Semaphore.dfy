/** The counting semaphore with a compare-and-swap release loop (internal/locks/semaphore.go).
    Each event is one atomic operation of one goroutine; any goroutine may call Release at any
    time, with or without a permit. */
module Semaphore {
  import opened Sets

  datatype Pc =
    | Adding              // x/sync Acquire returned, inFlight.Add(1) still to come
    | Loading             // in Release, about to Load
    | Loaded(seen: int)   // about to CompareAndSwap(seen, seen-1)
    | Swapped             // CAS succeeded, x/sync Release(1) still to come

  /** held is the x/sync semaphore's own count; threads are the goroutines inside a method. */
  datatype State = State(
    capacity: nat, held: int, inFlight: int, threads: map<nat, Pc>, panicked: bool)

  datatype Event =
    | Acquire(id: nat)
    | Add(id: nat)
    | CallRelease(id: nat)
    | Load(id: nat)
    | Swap(id: nat)
    | GiveBack(id: nat)

  function Start(capacity: nat): State
  {
    State(capacity, 0, 0, map[], false)
  }

  predicate At(s: State, i: nat, pc: Pc)
  {
    i in s.threads && s.threads[i] == pc
  }

  function Step(s: State, e: Event): State
  {
    match e
    case Acquire(i) =>
      if i !in s.threads && s.held < s.capacity then
        s.(held := s.held + 1, threads := s.threads[i := Adding])
      else s
    case Add(i) =>
      if At(s, i, Adding) then s.(inFlight := s.inFlight + 1, threads := s.threads - {i}) else s
    case CallRelease(i) =>
      if i !in s.threads then s.(threads := s.threads[i := Loading]) else s
    case Load(i) =>
      if !At(s, i, Loading) then s
      else if s.inFlight <= 0 then s.(threads := s.threads - {i})
      else s.(threads := s.threads[i := Loaded(s.inFlight)])
    case Swap(i) =>
      if i !in s.threads || !s.threads[i].Loaded? then s
      else if s.inFlight == s.threads[i].seen then
        s.(inFlight := s.inFlight - 1, threads := s.threads[i := Swapped])
      else s.(threads := s.threads[i := Loading])
    case GiveBack(i) =>
      if !At(s, i, Swapped) then s
      else s.(held := s.held - 1, panicked := s.panicked || s.held < 1, threads := s.threads - {i})
  }

  function Exec(capacity: nat, run: seq<Event>): State
  {
    if run == [] then Start(capacity) else Step(Exec(capacity, run[..|run| - 1]), run[|run| - 1])
  }

  ghost function Where(s: State, pc: Pc): set<nat>
  {
    set i | i in s.threads && s.threads[i] == pc
  }

  ghost predicate Inv(s: State)
  {
    && s.held == s.inFlight + |Where(s, Adding)| + |Where(s, Swapped)|
    && s.inFlight >= 0
    && s.held <= s.capacity
    && !s.panicked
    && (forall i :: i in s.threads && s.threads[i].Loaded? ==> s.threads[i].seen > 0)
  }

  /** Every permit of the underlying semaphore is accounted for, in every interleaving: counted
      in inFlight, about to be counted, or about to be handed back. So capacity is never
      exceeded and x/sync never panics, however often Release is called. */
  lemma {:induction false} PermitsAccountedFor(capacity: nat, run: seq<Event>)
    ensures Inv(Exec(capacity, run))
  {
    if run == [] {
      assert Where(Start(capacity), Adding) == {} == Where(Start(capacity), Swapped);
    } else {
      PermitsAccountedFor(capacity, run[..|run| - 1]);
      StepInv(Exec(capacity, run[..|run| - 1]), run[|run| - 1]);
    }
  }

  /** An event moves no goroutine but its own. */
  lemma OnlyOneMoves(s: State, e: Event, j: nat)
    requires j != e.id
    ensures var t := Step(s, e);
            (j in t.threads <==> j in s.threads) && (j in s.threads ==> t.threads[j] == s.threads[j])
  {
  }

  lemma WhereStep(s: State, e: Event, pc: Pc)
    ensures var t, i := Step(s, e), e.id;
            |Where(t, pc)| == |Where(s, pc)| + (if At(t, i, pc) then 1 else 0) - (if At(s, i, pc) then 1 else 0)
  {
    var t := Step(s, e);
    forall j | j != e.id ensures j in Where(t, pc) <==> j in Where(s, pc) {
      OnlyOneMoves(s, e, j);
    }
    Toggle(Where(s, pc), Where(t, pc), e.id);
  }

  lemma StepInv(s: State, e: Event)
    requires Inv(s)
    ensures Inv(Step(s, e))
  {
    WhereStep(s, e, Adding);
    WhereStep(s, e, Swapped);
  }

  /** One goroutine at a time: the object. */
  class WeightedSemaphore {
    const capacity: nat
    var held: int
    var inFlight: int

    ghost predicate Valid() reads this
    {
      held == inFlight && 0 <= inFlight <= capacity
    }

    constructor (capacity: nat)
      requires capacity >= 1
      ensures Valid() && this.capacity == capacity && inFlight == 0
    {
      this.capacity, held, inFlight := capacity, 0, 0;
    }

    /** A full semaphore blocks until the context ends, which is the refusal. */
    method Acquire() returns (ok: bool)
      requires Valid()
      modifies this
      ensures Valid() && ok == (old(inFlight) < capacity)
      ensures inFlight == old(inFlight) + if ok then 1 else 0
    {
      ok := held < capacity;
      if ok {
        held := held + 1;
        inFlight := inFlight + 1;
      }
    }

    /** Releasing more often than acquiring is absorbed. */
    method Release()
      requires Valid()
      modifies this
      ensures Valid() && inFlight == if old(inFlight) > 0 then old(inFlight) - 1 else 0
    {
      var current := inFlight;
      if current <= 0 { return; }
      inFlight := current - 1;
      held := held - 1;
    }
  }
}
