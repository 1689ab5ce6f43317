/** The publishing objects, one caller at a time (internal/locks/ingestion_marker.go,
    pipeline_guard.go, internal/bus/chain.go, seed.go). The interleavings are in Dedup. */
module Publisher {
  import opened Sets
  import opened Strings
  import opened SeenCache
  import opened Dedup

  type Markers = map<string, int>

  const DefaultMarkerTTL: nat := 86_400_000
  const DefaultCategoryTTL: nat := 60_000

  /** hash is the hex SHA-256 of a URL. */
  function IngestionKey(hash: string -> string, url: string): string
  {
    "ingestion:url:" + hash(url)
  }

  lemma IngestionKeyInjective(hash: string -> string, a: string, b: string)
    requires forall u, v :: hash(u) == hash(v) ==> u == v
    ensures IngestionKey(hash, a) == IngestionKey(hash, b) ==> a == b
  {
    assert IngestionKey(hash, a)[14..] == hash(a) && IngestionKey(hash, b)[14..] == hash(b);
  }

  predicate Live(m: Markers, key: string, now: int)
  {
    key in m && now < m[key]
  }

  function SetNX(m: Markers, key: string, now: int, ttl: nat): Markers
  {
    if Live(m, key, now) then m else m[key := now + ttl]
  }

  class IngestionMarker {
    const hash: string -> string
    const ttl: nat
    var markers: Markers

    constructor (hash: string -> string, ttl: int)
      ensures this.hash == hash && markers == map[]
      ensures this.ttl == if ttl <= 0 then 86_400_000 else ttl
    {
      this.hash, this.ttl, this.markers := hash, if ttl <= 0 then DefaultMarkerTTL else ttl, map[];
    }

    method AcquireWithTTL(url: string, requested: int, now: int, reply: Reply) returns (acquired: bool, failed: bool)
      modifies this
      ensures var key := IngestionKey(hash, url);
              var after := SetNX(old(markers), key, now, if requested <= 0 then ttl else requested);
              && (failed <==> reply.Lost?)
              && (acquired <==> !failed && !Live(old(markers), key, now))
              && markers == if reply == Lost(false) then old(markers) else after
      ensures var key := IngestionKey(hash, url);
              var held := key in old(markers) && now < old(markers)[key];
              && (acquired <==> reply == Answered && !held)
              && markers == (if reply == Lost(false) || held then old(markers)
                             else old(markers)[key := now + if requested <= 0 then ttl else requested])
    {
      var lifetime: nat := if requested <= 0 then ttl else requested;
      var key := IngestionKey(hash, url);
      acquired, failed := false, reply.Lost?;
      if reply == Lost(false) { return; }
      if !(key in markers && now < markers[key]) {
        markers := markers[key := now + lifetime];
        acquired := !failed;
      }
    }

    method Invalidate(url: string, reply: Reply) returns (failed: bool)
      modifies this
      ensures failed <==> reply.Lost?
      ensures markers == if reply == Lost(false) then old(markers) else old(markers) - {IngestionKey(hash, url)}
    {
      failed := reply.Lost?;
      if reply != Lost(false) { markers := markers - {IngestionKey(hash, url)}; }
    }
  }

  class PipelineGuard {
    const lock: IngestionMarker
    const categoryTTL: nat

    constructor (lock: IngestionMarker, categoryTTL: int)
      ensures this.lock == lock
      ensures this.categoryTTL == if categoryTTL <= 0 then 60_000 else categoryTTL
      ensures this.categoryTTL > 0
    {
      this.lock := lock;
      this.categoryTTL := if categoryTTL <= 0 then DefaultCategoryTTL else categoryTTL;
    }

    /** The lifetime a marker of this kind gets: the policy of Dedup.TTL. */
    function Policy(kind: Kind): nat
    {
      TTL(Config(lock.ttl, categoryTTL, 0), kind)
    }

    method CheckAndAcquire(url: string, kind: Kind, now: int, reply: Reply) returns (acquired: bool, failed: bool)
      requires lock.ttl > 0 && categoryTTL > 0
      modifies lock
      ensures var key := IngestionKey(lock.hash, url);
              && (failed <==> reply.Lost?)
              && (acquired <==> !failed && !Live(old(lock.markers), key, now))
              && lock.markers == if reply == Lost(false) then old(lock.markers)
                                 else SetNX(old(lock.markers), key, now, Policy(kind))
      ensures var key := IngestionKey(lock.hash, url);
              var held := key in old(lock.markers) && now < old(lock.markers)[key];
              && (acquired <==> reply == Answered && !held)
              && lock.markers == (if reply == Lost(false) || held then old(lock.markers)
                                  else old(lock.markers)[key := now + if kind == Category then categoryTTL else lock.ttl])
    {
      match kind
      case Category => acquired, failed := lock.AcquireWithTTL(url, categoryTTL, now, reply);
      case Article => acquired, failed := lock.AcquireWithTTL(url, lock.ttl, now, reply);
      case Other => acquired, failed := lock.AcquireWithTTL(url, lock.ttl, now, reply);
    }
  }

  // ---- filterByAcquire

  /** What one pass over a batch has done so far. */
  datatype Filter = Filter(markers: Markers, cache: Cache, out: seq<string>)

  /** The fixed surroundings of a pass; useCache is false for category links. */
  datatype Setting = Setting(hash: string -> string, ttl: nat, cacheTTL: int, cacheSize: nat, useCache: bool)

  /** The readings of the clock for one URL: at the cache lookup, at Redis, at the cache Add. */
  datatype Clock = Clock(look: int, ask: int, add: int)

  predicate Cached(k: Setting, c: Cache, url: string, now: int)
  {
    k.useCache && url in c.entries && now - c.entries[url] < k.cacheTTL
  }

  /** The lookup itself drops an expired entry. */
  function Looked(k: Setting, c: Cache, url: string, now: int): Cache
  {
    if k.useCache && url in c.entries && !Cached(k, c, url, now) then c.(entries := c.entries - {url}) else c
  }

  function FilterUrl(k: Setting, f: Filter, url: string, clock: Clock, reply: Reply): Filter
  {
    if Cached(k, f.cache, url, clock.look) then f
    else
      var cache := Looked(k, f.cache, url, clock.look);
      var key := IngestionKey(k.hash, url);
      var markers := if reply == Lost(false) then f.markers else SetNX(f.markers, key, clock.ask, k.ttl);
      if reply.Answered? && Live(f.markers, key, clock.ask) then
        Filter(markers, if k.useCache then Added(cache, k.cacheSize, url, clock.add) else cache, f.out)
      else Filter(markers, cache, f.out + [url])
  }

  function FilterAll(k: Setting, f: Filter, urls: seq<string>, clocks: seq<Clock>, replies: seq<Reply>): Filter
    requires |urls| <= |replies| && |urls| <= |clocks|
  {
    if urls == [] then f
    else
      var n := |urls| - 1;
      FilterUrl(k, FilterAll(k, f, urls[..n], clocks, replies), urls[n], clocks[n], replies[n])
  }

  predicate NoRepeats(s: seq<string>)
  {
    forall i, j :: 0 <= i < j < |s| ==> s[i] != s[j]
  }

  predicate During(clock: Clock, lo: int, hi: int)
  {
    lo <= clock.look <= hi && lo <= clock.ask <= hi && lo <= clock.add <= hi
  }

  /** What a pass without errors, between the times lo and hi, has established for one URL so far. */
  predicate Treated(k: Setting, start: Filter, f: Filter, lo: int, hi: int, seen: bool, url: string)
  {
    var key := IngestionKey(k.hash, url);
    && (url in f.out ==> seen && !Live(start.markers, key, hi) && Live(f.markers, key, hi))
    && (seen && url !in f.out ==> Live(start.markers, key, lo) || Cached(k, start.cache, url, lo))
    && (Live(start.markers, key, hi) ==> Live(f.markers, key, hi))
    && (key in f.markers && url !in f.out ==> key in start.markers && f.markers[key] == start.markers[key])
    && (Cached(k, f.cache, url, hi) || Cached(k, f.cache, url, lo) ==>
          Cached(k, start.cache, url, lo) || Live(start.markers, key, lo) || url in f.out)
  }

  lemma LookedFits(k: Setting, c: Cache, url: string, now: int)
    requires Fits(c, k.cacheSize)
    ensures Fits(Looked(k, c, url, now), k.cacheSize)
  {
    var cache := Looked(k, c, url, now);
    if cache != c {
      assert cache.entries.Keys == c.entries.Keys - {url};
      assert |cache.entries| == |cache.entries.Keys|;
    }
  }

  lemma FilterUrlTreats(k: Setting, start: Filter, f: Filter, lo: int, hi: int, url: string, clock: Clock, id: string, seen: bool)
    requires k.cacheTTL > 0 && During(clock, lo, hi) && hi < lo + k.ttl
    requires forall u, v :: k.hash(u) == k.hash(v) ==> u == v
    requires Fits(f.cache, k.cacheSize) && Treated(k, start, f, lo, hi, seen, id)
    ensures Treated(k, start, FilterUrl(k, f, url, clock, Answered), lo, hi, seen || id == url, id)
    ensures Fits(FilterUrl(k, f, url, clock, Answered).cache, k.cacheSize)
  {
    IngestionKeyInjective(k.hash, url, id);
    LookedFits(k, f.cache, url, clock.look);
    AddedFits(Looked(k, f.cache, url, clock.look), k.cacheSize, url, clock.add);
  }

  /** A pass without errors or cancellation that takes less than the marker's lifetime, whatever the
      clock reads for each URL: it lets each URL through at most once, only if its marker was free by
      the end of the pass, and always if its marker was free and the cache did not know it at the
      start. */
  lemma {:induction false} FilterAdmits(k: Setting, start: Filter, lo: int, hi: int, urls: seq<string>, clocks: seq<Clock>, replies: seq<Reply>)
    requires k.cacheTTL > 0 && lo <= hi < lo + k.ttl
    requires forall u, v :: k.hash(u) == k.hash(v) ==> u == v
    requires Fits(start.cache, k.cacheSize) && start.out == []
    requires |urls| <= |clocks| && forall i :: 0 <= i < |clocks| ==> During(clocks[i], lo, hi)
    requires |urls| <= |replies| && forall i :: 0 <= i < |replies| ==> replies[i] == Answered
    ensures var f := FilterAll(k, start, urls, clocks, replies);
            && NoRepeats(f.out) && Fits(f.cache, k.cacheSize)
            && (forall url :: Treated(k, start, f, lo, hi, url in urls, url))
  {
    if urls != [] {
      var n := |urls| - 1;
      FilterAdmits(k, start, lo, hi, urls[..n], clocks, replies);
      var before := FilterAll(k, start, urls[..n], clocks, replies);
      assert urls == urls[..n] + [urls[n]];
      forall url ensures Treated(k, start, FilterAll(k, start, urls, clocks, replies), lo, hi, url in urls, url) {
        FilterUrlTreats(k, start, before, lo, hi, urls[n], clocks[n], url, url in urls[..n]);
      }
      FilterUrlTreats(k, start, before, lo, hi, urls[n], clocks[n], urls[n], urls[n] in urls[..n]);
      OnlyOnce(k, start, before, lo, hi, urls[n], clocks[n], urls[n] in urls[..n]);
    }
  }

  /** A URL already let through in this pass finds its own marker held. */
  lemma OnlyOnce(k: Setting, start: Filter, f: Filter, lo: int, hi: int, url: string, clock: Clock, seen: bool)
    requires During(clock, lo, hi) && NoRepeats(f.out) && Treated(k, start, f, lo, hi, seen, url)
    ensures NoRepeats(FilterUrl(k, f, url, clock, Answered).out)
  {
  }

  /** The cache knows the URL and its entry is younger than the cache's TTL, or Redis answers that the
      marker is held. */
  predicate DroppedAt(k: Setting, f: Filter, url: string, clock: Clock, reply: Reply)
  {
    var key := IngestionKey(k.hash, url);
    || (k.useCache && url in f.cache.entries && clock.look < f.cache.entries[url] + k.cacheTTL)
    || (reply == Answered && key in f.markers && clock.ask < f.markers[key])
  }

  lemma PassesOne(k: Setting, f: Filter, url: string, clock: Clock, reply: Reply)
    ensures FilterUrl(k, f, url, clock, reply).out == f.out + if DroppedAt(k, f, url, clock, reply) then [] else [url]
  {
  }

  /** URL i is let through when its turn comes. */
  predicate Passes(k: Setting, start: Filter, urls: seq<string>, clocks: seq<Clock>, replies: seq<Reply>, i: nat)
    requires i < |urls| <= |replies| && |urls| <= |clocks|
  {
    !DroppedAt(k, FilterAll(k, start, urls[..i], clocks, replies), urls[i], clocks[i], replies[i])
  }

  /** Which URLs a pass lets through, in their order: all but those the cache knows at their turn and
      those whose marker Redis says is held. An error of Redis lets a URL through. */
  lemma {:induction false} PassesExactly(
      k: Setting, start: Filter, urls: seq<string>, clocks: seq<Clock>, replies: seq<Reply>, n: nat) returns (at: seq<nat>)
    requires n <= |urls| <= |replies| && |urls| <= |clocks| && start.out == []
    ensures (forall i :: 0 <= i < |at| ==> at[i] < n) && (forall i, j :: 0 <= i < j < |at| ==> at[i] < at[j])
    ensures forall i :: 0 <= i < n ==> (i in at <==> Passes(k, start, urls, clocks, replies, i))
    ensures var out := FilterAll(k, start, urls[..n], clocks, replies).out;
            |out| == |at| && forall i :: 0 <= i < |at| ==> out[i] == urls[at[i]]
  {
    at := [];
    if n > 0 {
      at := PassesExactly(k, start, urls, clocks, replies, n - 1);
      var f := FilterAll(k, start, urls[..n - 1], clocks, replies);
      assert urls[..n][..n - 1] == urls[..n - 1];
      PassesOne(k, f, urls[n - 1], clocks[n - 1], replies[n - 1]);
      if Passes(k, start, urls, clocks, replies, n - 1) { at := at + [n - 1]; }
    }
  }

  /** A URL whose marker was found held is remembered while there is room: until the cache's TTL has
      passed it is dropped without a question to Redis. */
  lemma RefusalIsRemembered(k: Setting, f: Filter, url: string, clock: Clock, later: Clock, reply: Reply)
    requires k.useCache && k.cacheSize >= 1 && Fits(f.cache, k.cacheSize) && |f.cache.entries| < k.cacheSize
    requires !Cached(k, f.cache, url, clock.look) && IngestionKey(k.hash, url) in f.markers
    requires clock.ask < f.markers[IngestionKey(k.hash, url)]
    ensures var t := FilterUrl(k, f, url, clock, Answered);
            && t.markers == f.markers && t.out == f.out
            && (later.look < clock.add + k.cacheTTL ==> FilterUrl(k, t, url, later, reply) == t)
  {
    LookedFits(k, f.cache, url, clock.look);
    var cache := Looked(k, f.cache, url, clock.look);
    assert cache.entries.Keys <= f.cache.entries.Keys;
    SubsetSize(cache.entries.Keys, f.cache.entries.Keys);
    assert |cache.entries| == |cache.entries.Keys| && |f.cache.entries| == |f.cache.entries.Keys|;
    var _ := AddedExactly(cache, k.cacheSize, url, clock.add);
  }

  class ChainPublisher {
    const guard: PipelineGuard
    const cache: SeenCache

    constructor (guard: PipelineGuard, cache: SeenCache)
      ensures this.guard == guard && this.cache == cache
    {
      this.guard, this.cache := guard, cache;
    }

    /** live is how many URLs are handled before the context is cancelled; the rest pass through. */
    method AcquireViaGuard(urls: seq<string>, kind: Kind, clocks: seq<Clock>, live: nat, replies: seq<Reply>)
      returns (out: seq<string>)
      requires cache.Valid() && guard.lock.ttl > 0 && guard.categoryTTL > 0
      requires |urls| <= |replies| && |urls| <= |clocks|
      modifies guard.lock, cache
      ensures cache.Valid()
      ensures var n := if live < |urls| then live else |urls|;
              var k := Setting(guard.lock.hash, guard.Policy(kind), cache.ttl, cache.maxSize, kind != Category);
              var f := FilterAll(k, Filter(old(guard.lock.markers), Cache(old(cache.entries), old(cache.order)), []),
                                 urls[..n], clocks, replies);
              && out == f.out + urls[n..]
              && guard.lock.markers == f.markers && Cache(cache.entries, cache.order) == f.cache
    {
      out := [];
      ghost var k := Setting(guard.lock.hash, guard.Policy(kind), cache.ttl, cache.maxSize, kind != Category);
      ghost var start := Filter(guard.lock.markers, Cache(cache.entries, cache.order), []);
      var i := 0;
      while i < |urls|
        invariant 0 <= i <= |urls| && i <= live
        invariant cache.Valid()
        invariant Filter(guard.lock.markers, Cache(cache.entries, cache.order), out) == FilterAll(k, start, urls[..i], clocks, replies)
      {
        if i == live {
          return out + urls[i..];
        }
        assert urls[..i + 1][..i] == urls[..i];
        var passes := Ask(urls[i], kind, clocks[i], replies[i], out);
        if passes { out := out + [urls[i]]; }
        i := i + 1;
      }
      assert urls[..i] == urls;
    }

    ghost function Surroundings(kind: Kind): Setting
    {
      Setting(guard.lock.hash, guard.Policy(kind), cache.ttl, cache.maxSize, kind != Category)
    }

    /** The body of the loop. */
    method Ask(url: string, kind: Kind, clock: Clock, reply: Reply, ghost out: seq<string>) returns (passes: bool)
      requires cache.Valid() && guard.lock.ttl > 0 && guard.categoryTTL > 0
      modifies guard.lock, cache
      ensures cache.Valid()
      ensures Filter(guard.lock.markers, Cache(cache.entries, cache.order), if passes then out + [url] else out) ==
              FilterUrl(Surroundings(kind), Filter(old(guard.lock.markers), Cache(old(cache.entries), old(cache.order)), out),
                        url, clock, reply)
    {
      if kind != Category {
        var seen := cache.Has(url, clock.look);
        if seen { return false; }
      }
      var acquired, failed := guard.CheckAndAcquire(url, kind, clock.ask, reply);
      passes := failed || acquired;
      if !passes && kind != Category { cache.Add(url, clock.add); }
    }
  }

  datatype SeedResult = Published | PublishSkipped | BuildFailed | PublishFailed

  class SeedPublisher {
    const guard: PipelineGuard

    constructor (guard: PipelineGuard)
      ensures this.guard == guard
    {
      this.guard := guard;
    }

    /** A failed publish that had set the marker deletes whatever marker is there by then. Between the
        two calls other publishers may have been at it: Dedup.UndoTakesOwnExactly. */
    method PublishSeed(url: string, kind: Kind, now: int, reply: Reply, builds: bool, sends: bool, undo: Reply)
      returns (r: SeedResult)
      requires guard.lock.ttl > 0 && guard.categoryTTL > 0
      modifies guard.lock
      ensures var key := IngestionKey(guard.lock.hash, url);
              var held := Live(old(guard.lock.markers), key, now);
              && (r == PublishSkipped <==> reply == Answered && held)
              && (r == Published <==> r != PublishSkipped && builds && sends)
              && (r == BuildFailed <==> r != PublishSkipped && !builds)
              && (r == PublishSkipped ==> guard.lock.markers == old(guard.lock.markers))
              && (r == Published ==>
                    guard.lock.markers == if reply == Lost(false) then old(guard.lock.markers)
                                          else SetNX(old(guard.lock.markers), key, now, guard.Policy(kind)))
              && (r == BuildFailed || r == PublishFailed ==>
                    if reply == Answered && undo != Lost(false) then guard.lock.markers == old(guard.lock.markers) - {key}
                    else guard.lock.markers == if reply == Lost(false) then old(guard.lock.markers)
                                               else SetNX(old(guard.lock.markers), key, now, guard.Policy(kind)))
    {
      var acquired, failed := guard.CheckAndAcquire(url, kind, now, reply);
      if !failed && !acquired { return PublishSkipped; }
      if !builds || !sends {
        if acquired { var _ := guard.lock.Invalidate(url, undo); }
        return if !builds then BuildFailed else PublishFailed;
      }
      return Published;
    }
  }
}
