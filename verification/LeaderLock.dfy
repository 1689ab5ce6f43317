/** The leader lock (pkg/redis/leader_lock.go): a process-local token beside the Redis lock.
    The mutex guards only the token field, so TryAcquire and Release are several steps each and
    goroutines of one instance interleave with each other and with other instances. */
module LeaderLock {
  import opened Strings
  import L = TokenLocks

  /** A goroutine inside TryAcquire or Release. */
  datatype Call =
    | Checked(who: nat, token: string)   // saw an empty token field, generated a token
    | Won(who: nat, token: string)       // SET NX succeeded, token not stored yet
    | Taken(who: nat, token: string)     // Release emptied the field, script not run yet

  datatype State = State(
    locks: L.Locks,
    local: map<nat, string>,    // the token field of each instance, "" or absent when not held
    calls: map<nat, Call>,
    bearer: map<string, nat>)   // which instance generated a token

  datatype Event =
    | Tick(elapsed: nat)
    | Check(call: nat, who: nat, token: string)
    | TrySet(call: nat)
    | Store(call: nat)
    | Take(call: nat, who: nat)
    | RunScript(call: nat)

  /** The key of the role and the TTL every instance was built with. */
  datatype Config = Config(key: string, ttl: nat)

  function Local(s: State, who: nat): string
  {
    if who in s.local then s.local[who] else ""
  }

  /** The lock command an event sends to Redis, if any. */
  function Command(c: Config, s: State, e: Event): Option<L.Event>
  {
    match e
    case Tick(d) => Some(L.Tick(d))
    case TrySet(i) =>
      if i in s.calls && s.calls[i].Checked? then Some(L.SetNX(c.key, s.calls[i].token, c.ttl)) else None
    case RunScript(i) =>
      if i in s.calls && s.calls[i].Taken? then Some(L.CompareAndDelete(c.key, s.calls[i].token)) else None
    case _ => None
  }

  function Step(c: Config, s: State, e: Event): State
  {
    var cmd := Command(c, s, e);
    var s := s.(locks := if cmd.Some? then L.Step(s.locks, cmd.value) else s.locks);
    match e
    case Tick(_) => s
    case Check(i, who, token) =>
      if i !in s.calls && Local(s, who) == "" && token !in s.bearer && L.Fresh(s.locks, token, c.ttl) then
        s.(calls := s.calls[i := Checked(who, token)], bearer := s.bearer[token := who])
      else s
    case TrySet(i) =>
      if i in s.calls && s.calls[i].Checked? then
        var call := s.calls[i];
        if L.Owns(s.locks, c.key, call.token) then s.(calls := s.calls[i := Won(call.who, call.token)])
        else s.(calls := s.calls - {i})
      else s
    case Store(i) =>
      if i in s.calls && s.calls[i].Won? then
        s.(local := s.local[s.calls[i].who := s.calls[i].token], calls := s.calls - {i})
      else s
    case Take(i, who) =>
      if i !in s.calls && Local(s, who) != "" then
        s.(calls := s.calls[i := Taken(who, Local(s, who))], local := s.local[who := ""])
      else s
    case RunScript(i) =>
      if i in s.calls && s.calls[i].Taken? then s.(calls := s.calls - {i}) else s
  }

  const Start := State(L.Empty, map[], map[], map[])

  function Exec(c: Config, run: seq<Event>): State
  {
    if run == [] then Start else Step(c, Exec(c, run[..|run| - 1]), run[|run| - 1])
  }

  /** The lock commands a leader run sends. */
  function Commands(c: Config, run: seq<Event>): seq<L.Event>
  {
    if run == [] then []
    else
      var before := run[..|run| - 1];
      var cmd := Command(c, Exec(c, before), run[|run| - 1]);
      Commands(c, before) + (if cmd.Some? then [cmd.value] else [])
  }

  /** Refinement: whatever the goroutines do, Redis sees a run of the token lock, so mutual
      exclusion and harmless late releases carry over (TokenLocks). */
  lemma {:induction false} RefinesTokenLocks(c: Config, run: seq<Event>)
    ensures Exec(c, run).locks == L.Exec(Commands(c, run))
  {
    if run != [] {
      var before, e := run[..|run| - 1], run[|run| - 1];
      RefinesTokenLocks(c, before);
      var cmd := Command(c, Exec(c, before), e);
      if cmd.Some? {
        var all := Commands(c, run);
        assert all == Commands(c, before) + [cmd.value];
        assert all[..|all| - 1] == Commands(c, before);
      } else {
        assert Commands(c, run) == Commands(c, before);
      }
    }
  }

  ghost predicate Inv(c: Config, s: State)
  {
    && (forall i :: i in s.calls ==>
          s.calls[i].token in s.bearer && s.bearer[s.calls[i].token] == s.calls[i].who)
    && (forall w :: w in s.local && s.local[w] != "" ==>
          s.local[w] in s.bearer && s.bearer[s.local[w]] == w)
    && (forall t :: t in s.locks.taken ==> s.locks.taken[t].key == c.key)
  }

  lemma {:induction false} AlwaysInv(c: Config, run: seq<Event>)
    ensures Inv(c, Exec(c, run))
  {
    if run != [] {
      AlwaysInv(c, run[..|run| - 1]);
      StepKeeps(c, Exec(c, run[..|run| - 1]), run[|run| - 1]);
    }
  }

  lemma StepKeeps(c: Config, s: State, e: Event)
    requires Inv(c, s)
    ensures Inv(c, Step(c, s, e))
  {
    match e
    case TrySet(i) => TrySetKeeps(c, s, i);
    case Store(i) => StoreKeeps(c, s, i);
    case RunScript(i) => RunScriptKeeps(c, s, i);
    case _ =>
  }

  lemma TrySetKeeps(c: Config, s: State, i: nat)
    requires Inv(c, s)
    ensures Inv(c, Step(c, s, TrySet(i)))
  {
  }

  lemma StoreKeeps(c: Config, s: State, i: nat)
    requires Inv(c, s)
    ensures Inv(c, Step(c, s, Store(i)))
  {
  }

  lemma RunScriptKeeps(c: Config, s: State, i: nat)
    requires Inv(c, s)
    ensures Inv(c, Step(c, s, RunScript(i)))
  {
  }

  /** The instance believes it is leader, and its lock is still in force. */
  predicate Leads(s: State, who: nat)
  {
    Local(s, who) != "" && L.InForce(s.locks, Local(s, who))
  }

  /** In every interleaving of every goroutine, at most one instance leads. */
  lemma AtMostOneLeader(c: Config, run: seq<Event>, a: nat, b: nat)
    requires Leads(Exec(c, run), a) && Leads(Exec(c, run), b)
    ensures a == b
  {
    AlwaysInv(c, run);
    RefinesTokenLocks(c, run);
    L.AtMostOneHolder(Commands(c, run), Local(Exec(c, run), a), Local(Exec(c, run), b));
  }

  /** A release that comes too late leaves the new leader leading. */
  lemma LateReleaseIsHarmless(c: Config, run: seq<Event>, call: nat, who: nat)
    requires var s := Exec(c, run);
             Leads(s, who) && call in s.calls && s.calls[call].Taken? && s.calls[call].token != Local(s, who)
    ensures Leads(Step(c, Exec(c, run), RunScript(call)), who)
  {
    RefinesTokenLocks(c, run);
    L.ReleaseExactly(Commands(c, run), c.key, Exec(c, run).calls[call].token);
  }

  /** The object, one goroutine at a time. */
  class LeaderLocker {
    const redis: L.Redis
    const key: string
    const ttl: nat
    var token: string

    constructor (redis: L.Redis, role: string, ttl: nat)
      requires role != "" && ttl > 0
      ensures this.redis == redis && this.key == "lock:leader:" + role && this.ttl == ttl && token == ""
    {
      this.redis, this.key, this.ttl, this.token := redis, "lock:leader:" + role, ttl, "";
    }

    /** lost: the reply never came back, whether or not Redis ran the command. */
    method TryAcquire(random: Option<string>, lost: bool, applied: bool) returns (acquired: bool, failed: bool)
      requires ttl > 0
      requires random.Some? ==> L.Fresh(redis.db, random.value, ttl)
      modifies this, redis
      ensures old(token) != "" ==>
                !acquired && !failed && token == old(token) && redis.db == old(redis.db)
      ensures old(token) == "" ==> (failed <==> random.None? || lost)
      ensures acquired <==> old(token) == "" && !failed && !L.Present(old(redis.db), key)
      ensures acquired ==> token == random.value && L.InForce(redis.db, token)
      ensures !acquired ==> token == old(token)
      ensures old(token) == "" && random.Some? && (!lost || applied) ==>
                redis.db == L.Step(old(redis.db), L.SetNX(key, random.value, ttl))
      ensures random.None? || (lost && !applied) ==> redis.db == old(redis.db)
    {
      acquired, failed := false, false;
      if token != "" { return; }
      if random.None? || (lost && !applied) { return false, true; }
      var ok := redis.SetIfAbsent(key, random.value, ttl);
      if lost { return false, true; }
      if ok {
        token := random.value;
        acquired := true;
      }
    }

    method Release(lost: bool, applied: bool) returns (failed: bool)
      modifies this, redis
      ensures token == ""
      ensures failed <==> old(token) != "" && lost
      ensures redis.db == if old(token) != "" && (!lost || applied)
                          then L.Step(old(redis.db), L.CompareAndDelete(key, old(token)))
                          else old(redis.db)
    {
      var mine := token;
      token := "";
      if mine == "" { return false; }
      if lost && !applied { return true; }
      var _ := redis.DeleteIfEqual(key, mine);
      failed := lost;
    }
  }
}
