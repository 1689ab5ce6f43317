/** Token-owned locks on a shared Redis (pkg/redis/lock.go, internal/locks/processing_lock.go).
    Every event below is one Redis command, so a list of events is one interleaving of any
    number of clients. Token freshness and a monotone clock are the hypotheses. */
module TokenLocks {
  import opened Strings

  /** The value and expiry time stored under a lock key. */
  datatype Entry = Entry(token: string, expiry: int)

  /** One SET NX that succeeded; released once its own token deleted it. */
  datatype Acquisition = Acquisition(key: string, since: int, ttl: nat, released: bool)

  /** The clock, the live part of Redis, and the history of acquisitions by token. */
  datatype Locks = Locks(now: int, store: map<string, Entry>, taken: map<string, Acquisition>)

  datatype Event =
    | Tick(elapsed: nat)
    | SetNX(key: string, token: string, ttl: nat)
    | CompareAndDelete(key: string, token: string)

  const Empty := Locks(0, map[], map[])

  /** Redis answers a GET on the key: it exists and has not expired. */
  predicate Present(s: Locks, key: string)
  {
    key in s.store && s.now < s.store[key].expiry
  }

  /** A token fit for a new acquisition, with a lifetime Redis will enforce. */
  predicate Fresh(s: Locks, token: string, ttl: nat)
  {
    token != "" && token !in s.taken && ttl > 0
  }

  predicate Owns(s: Locks, key: string, token: string)
  {
    Present(s, key) && s.store[key].token == token
  }

  function Step(s: Locks, e: Event): Locks
  {
    match e
    case Tick(d) => s.(now := s.now + d)
    case SetNX(key, token, ttl) =>
      if Fresh(s, token, ttl) && !Present(s, key) then
        s.(store := s.store[key := Entry(token, s.now + ttl)],
           taken := s.taken[token := Acquisition(key, s.now, ttl, false)])
      else s
    case CompareAndDelete(key, token) =>
      if Owns(s, key, token) then
        s.(store := s.store - {key},
           taken := if token in s.taken then s.taken[token := s.taken[token].(released := true)] else s.taken)
      else s
  }

  function Exec(run: seq<Event>): Locks
  {
    if run == [] then Empty else Step(Exec(run[..|run| - 1]), run[|run| - 1])
  }

  /** The acquisition is unreleased and within its TTL. */
  predicate InForce(s: Locks, token: string)
  {
    token in s.taken && !s.taken[token].released && s.now < s.taken[token].since + s.taken[token].ttl
  }

  ghost predicate Consistent(s: Locks)
  {
    && (forall t :: InForce(s, t) ==>
          var a := s.taken[t]; a.key in s.store && s.store[a.key] == Entry(t, a.since + a.ttl))
    && (forall k :: Present(s, k) ==>
          InForce(s, s.store[k].token) && s.taken[s.store[k].token].key == k)
  }

  lemma {:induction false} AlwaysConsistent(run: seq<Event>)
    ensures Consistent(Exec(run))
  {
    if run != [] {
      AlwaysConsistent(run[..|run| - 1]);
      StepConsistent(Exec(run[..|run| - 1]), run[|run| - 1]);
    }
  }

  lemma StepConsistent(s: Locks, e: Event)
    requires Consistent(s)
    ensures Consistent(Step(s, e))
  {
    var t := Step(s, e);
    forall tok | InForce(t, tok)
      ensures var a := t.taken[tok]; a.key in t.store && t.store[a.key] == Entry(tok, a.since + a.ttl)
    {
      if InForce(s, tok) {
        var a := s.taken[tok];
        assert s.store[a.key] == Entry(tok, a.since + a.ttl);
        assert Present(s, a.key);
      }
    }
    forall k | Present(t, k)
      ensures InForce(t, t.store[k].token) && t.taken[t.store[k].token].key == k
    {
      if Present(s, k) { assert InForce(s, s.store[k].token); }
    }
  }

  /** Mutual exclusion over every run: two acquisitions of one key that are both unreleased and
      within their TTL are the same acquisition. */
  lemma AtMostOneHolder(run: seq<Event>, a: string, b: string)
    requires InForce(Exec(run), a) && InForce(Exec(run), b)
    requires Exec(run).taken[a].key == Exec(run).taken[b].key
    ensures a == b
  {
    AlwaysConsistent(run);
  }

  /** SET NX wins exactly when nobody holds the key, and then holds it for the full TTL. */
  lemma AcquireExactly(run: seq<Event>, key: string, token: string, ttl: nat)
    requires Fresh(Exec(run), token, ttl)
    ensures var s, t := Exec(run), Step(Exec(run), SetNX(key, token, ttl));
            && (InForce(t, token) <==> !exists u :: InForce(s, u) && s.taken[u].key == key)
            && (InForce(t, token) ==> t.taken[token] == Acquisition(key, s.now, ttl, false) && Owns(t, key, token))
            && (forall u :: u != token ==> (InForce(t, u) <==> InForce(s, u)))
  {
    AlwaysConsistent(run);
    var s := Exec(run);
    if Present(s, key) { assert InForce(s, s.store[key].token); }
  }

  /** A release takes effect exactly when its own acquisition is still in force, and in no case
      does it end another acquisition: the late release of an expired token is harmless. */
  lemma ReleaseExactly(run: seq<Event>, key: string, token: string)
    ensures var s, t := Exec(run), Step(Exec(run), CompareAndDelete(key, token));
            && (Owns(s, key, token) <==> InForce(s, token) && s.taken[token].key == key)
            && (InForce(t, token) <==> InForce(s, token) && s.taken[token].key != key)
            && (forall u :: u != token ==> (InForce(t, u) <==> InForce(s, u)))
            && (forall k :: k != key ==> (Present(t, k) <==> Present(s, k)))
            && (Present(t, key) <==> Present(s, key) && !(InForce(s, token) && s.taken[token].key == key))
  {
    AlwaysConsistent(run);
    var s := Exec(run);
    if InForce(s, token) && s.taken[token].key == key { assert Present(s, key); }
  }

  /** Time alone ends an unreleased acquisition exactly when its TTL is over, and frees its key with it. */
  lemma ExpiresExactly(run: seq<Event>, token: string, elapsed: nat)
    requires InForce(Exec(run), token)
    ensures var s, t := Exec(run), Step(Exec(run), Tick(elapsed));
            var a := s.taken[token];
            && (InForce(t, token) <==> s.now + elapsed < a.since + a.ttl)
            && (Present(t, a.key) <==> s.now + elapsed < a.since + a.ttl)
  {
    AlwaysConsistent(run);
  }

  // ---- the Redis commands and the two lock clients, as objects

  /** One Redis, shared by every client that holds a reference to it. */
  class Redis {
    var db: Locks

    constructor ()
      ensures db == Empty
    {
      db := Empty;
    }

    method SetIfAbsent(key: string, token: string, ttl: nat) returns (ok: bool)
      requires Fresh(db, token, ttl)
      modifies this
      ensures db == Step(old(db), SetNX(key, token, ttl))
      ensures ok <==> !Present(old(db), key)
    {
      ok := !Present(db, key);
      if ok {
        db := db.(store := db.store[key := Entry(token, db.now + ttl)],
                  taken := db.taken[token := Acquisition(key, db.now, ttl, false)]);
      }
    }

    /** The Lua script: GET, compare, DEL as one command. */
    method DeleteIfEqual(key: string, token: string) returns (deleted: bool)
      modifies this
      ensures db == Step(old(db), CompareAndDelete(key, token))
      ensures deleted <==> Owns(old(db), key, token)
    {
      deleted := Present(db, key) && db.store[key].token == token;
      if deleted {
        var taken := db.taken;
        if token in taken { taken := taken[token := taken[token].(released := true)]; }
        db := db.(store := db.store - {key}, taken := taken);
      }
    }
  }

  datatype LockError = NoError | TokenFailure | Infrastructure | NotOwned

  const DefaultProcessingLockTTL: nat := 600_000 // ten minutes, in milliseconds

  class ProcessingLock {
    const redis: Redis
    const ttl: nat

    constructor (redis: Redis, ttl: int)
      ensures this.redis == redis && this.ttl > 0
      ensures ttl > 0 ==> this.ttl == ttl
      ensures ttl <= 0 ==> this.ttl == 600_000
    {
      this.redis := redis;
      this.ttl := if ttl <= 0 then DefaultProcessingLockTTL else ttl;
    }

    /** random is None when the token generator fails; lost says the command never reached
        Redis, or its reply never came back. */
    method Acquire(key: string, random: Option<string>, lost: bool, applied: bool)
      returns (token: string, acquired: bool, err: LockError)
      requires ttl > 0
      requires random.Some? ==> Fresh(redis.db, random.value, ttl)
      modifies redis
      ensures random.None? ==> err == TokenFailure && redis.db == old(redis.db)
      ensures random.Some? ==> (err == Infrastructure <==> lost) && err != TokenFailure && err != NotOwned
      ensures random.Some? && (!lost || applied) ==>
                redis.db == Step(old(redis.db), SetNX(key, random.value, ttl))
      ensures random.Some? && lost && !applied ==> redis.db == old(redis.db)
      ensures acquired <==> err == NoError && !Present(old(redis.db), key)
      ensures acquired ==> token == random.value && InForce(redis.db, token)
      ensures !acquired ==> token == ""
    {
      token, acquired, err := "", false, NoError;
      if random.None? {
        err := TokenFailure;
        return;
      }
      if lost && !applied {
        err := Infrastructure;
        return;
      }
      var ok := redis.SetIfAbsent(key, random.value, ttl);
      if lost {
        err := Infrastructure;
      } else if ok {
        token, acquired := random.value, true;
      }
    }

    method Release(key: string, token: string, lost: bool, applied: bool) returns (err: LockError)
      modifies redis
      ensures token == "" ==> err == NoError && redis.db == old(redis.db)
      ensures token != "" && (!lost || applied) ==>
                redis.db == Step(old(redis.db), CompareAndDelete(key, token))
      ensures token != "" && lost ==> err == Infrastructure
      ensures lost && !applied ==> redis.db == old(redis.db)
      ensures token != "" && !lost ==>
                err == if Owns(old(redis.db), key, token) then NoError else NotOwned
    {
      err := NoError;
      if token == "" { return; }
      if lost && !applied { return Infrastructure; }
      var released := redis.DeleteIfEqual(key, token);
      if lost {
        err := Infrastructure;
      } else if !released {
        err := NotOwned;
      }
    }
  }

  // ---- key functions

  const ProcessingPrefix := "processing:"
  const HashLength: nat := 64

  /** hash is the hex SHA-256 of the URL, 64 characters long. */
  function ProcessingKey(hash: string -> string, stage: string, url: string): string
  {
    ProcessingPrefix + stage + ":url:" + hash(url)
  }

  /** Different (stage, URL) pairs never share a lock, whatever characters a stage contains. */
  lemma ProcessingKeyInjective(hash: string -> string, stage: string, url: string, stage': string, url': string)
    requires forall u :: |hash(u)| == HashLength
    requires forall u, v :: hash(u) == hash(v) ==> u == v
    requires ProcessingKey(hash, stage, url) == ProcessingKey(hash, stage', url')
    ensures stage == stage' && url == url'
  {
    var k, k' := ProcessingKey(hash, stage, url), ProcessingKey(hash, stage', url');
    var p := |ProcessingPrefix|;
    assert |k| == p + |stage| + 5 + HashLength && |k'| == p + |stage'| + 5 + HashLength;
    assert k[|k| - HashLength..] == hash(url) && k'[|k'| - HashLength..] == hash(url');
    assert k[p..p + |stage|] == stage && k'[p..p + |stage'|] == stage';
  }
}
