/** The bounded memory of URLs whose marker was found held (internal/bus/seen_cache.go). */
module SeenCache {
  import opened Sets
  import opened Strings

  type Entries = map<string, int>

  /** Drop from the front of order until the entries fit. */
  function Evict(entries: Entries, order: seq<string>, max: nat): (Entries, seq<string>)
    decreases |order|
  {
    if |entries| <= max || order == [] then (entries, order)
    else Evict(entries - {order[0]}, order[1..], max)
  }

  /** Drop the keys of order that are no longer entries. */
  function Compact(entries: Entries, order: seq<string>): seq<string>
  {
    if order == [] then []
    else
      var n := |order| - 1;
      Compact(entries, order[..n]) + (if order[n] in entries then [order[n]] else [])
  }

  datatype Cache = Cache(entries: Entries, order: seq<string>)

  function Added(c: Cache, max: nat, url: string, now: int): Cache
  {
    var order := if url in c.entries then c.order else c.order + [url];
    var (entries, order) := Evict(c.entries[url := now], order, max);
    Cache(entries, if |order| > 2 * max then Compact(entries, order) else order)
  }

  predicate Fits(c: Cache, max: nat)
  {
    && |c.entries| <= max
    && forall k :: k in c.entries ==> k in c.order
  }

  lemma {:induction false} EvictFits(entries: Entries, order: seq<string>, max: nat)
    requires forall k :: k in entries ==> k in order
    ensures var (e, o) := Evict(entries, order, max);
            && |e| <= max
            && (forall k :: k in e ==> k in o && k in entries && e[k] == entries[k])
    decreases |order|
  {
    if |entries| > max && order != [] {
      assert order == [order[0]] + order[1..];
      EvictFits(entries - {order[0]}, order[1..], max);
    } else if order == [] {
      assert entries.Keys == {};
    }
  }

  lemma {:induction false} CompactKeeps(entries: Entries, order: seq<string>, k: string)
    ensures k in Compact(entries, order) <==> k in order && k in entries
  {
    if order != [] {
      var n := |order| - 1;
      CompactKeeps(entries, order[..n], k);
      assert order == order[..n] + [order[n]];
    }
  }

  /** Compaction looks at one key at a time and keeps the order. */
  lemma {:induction false} CompactDistributes(entries: Entries, a: seq<string>, b: seq<string>)
    ensures Compact(entries, a + b) == Compact(entries, a) + Compact(entries, b)
  {
    if b == [] {
      assert a + b == a;
    } else {
      var n := |b| - 1;
      CompactDistributes(entries, a, b[..n]);
      assert (a + b)[..|a + b| - 1] == a + b[..n];
    }
  }

  lemma CompactOne(entries: Entries, k: string)
    ensures Compact(entries, [k]) == if k in entries then [k] else []
  {
    assert [k][..0] == [];
  }

  /** Of one entry too many, the first live key of order goes, and order goes on behind it. */
  lemma {:induction false} EvictsFirstLive(entries: Entries, order: seq<string>, max: nat) returns (n: nat)
    requires |entries| == max + 1 && forall k :: k in entries ==> k in order
    ensures n < |order| && order[n] in entries && forall i :: 0 <= i < n ==> order[i] !in entries
    ensures Evict(entries, order, max) == (entries - {order[n]}, order[n + 1..])
    decreases |order|
  {
    assert order != [];
    assert order == [order[0]] + order[1..];
    if order[0] in entries {
      n := 0;
      assert (entries - {order[0]}).Keys == entries.Keys - {order[0]};
      assert |entries - {order[0]}| == max;
    } else {
      assert entries - {order[0]} == entries;
      n := EvictsFirstLive(entries, order[1..], max);
      assert order[n + 1] == order[1..][n] && order[1..][n + 1..] == order[n + 2..];
      n := n + 1;
    }
  }

  /** What an Add leaves. A known URL, or a new one while there is room, only gets its time. Otherwise
      exactly the first live key of order is forgotten, with everything before it in order. */
  lemma AddedExactly(c: Cache, max: nat, url: string, now: int) returns (n: nat)
    requires Fits(c, max) && max >= 1
    ensures var t, all := Added(c, max, url, now), c.entries[url := now];
            var order := if url in c.entries then c.order else c.order + [url];
            var left := if url in c.entries || |c.entries| < max then order else if n < |order| then order[n + 1..] else [];
            && (url in c.entries || |c.entries| < max ==> t.entries == all)
            && (url !in c.entries && |c.entries| == max ==>
                  && n < |order| && order[n] in all && (forall i :: 0 <= i < n ==> order[i] !in all)
                  && t.entries == all - {order[n]})
            && t.order == (if |left| > 2 * max then Compact(t.entries, left) else left)
  {
    n := 0;
    var all, order := c.entries[url := now], if url in c.entries then c.order else c.order + [url];
    if url in c.entries {
      assert all.Keys == c.entries.Keys && |all| == |c.entries|;
    } else {
      assert all.Keys == c.entries.Keys + {url} && |all| == |c.entries| + 1;
      if |c.entries| == max { n := EvictsFirstLive(all, order, max); }
    }
  }

  /** Adding keeps the bound, and invents nothing: every entry afterwards is an old one or the
      URL just added with the present time. */
  lemma AddedFits(c: Cache, max: nat, url: string, now: int)
    requires Fits(c, max)
    ensures var t := Added(c, max, url, now);
            && Fits(t, max)
            && (forall k :: k in t.entries ==>
                  (k == url && t.entries[k] == now) || (k != url && k in c.entries && t.entries[k] == c.entries[k]))
  {
    var order := if url in c.entries then c.order else c.order + [url];
    EvictFits(c.entries[url := now], order, max);
    var (e, o) := Evict(c.entries[url := now], order, max);
    forall k | k in e ensures k in Added(c, max, url, now).order { CompactKeeps(e, o, k); }
  }

  /** The first key of order that is an entry. */
  function FirstLive(entries: Entries, order: seq<string>): Option<string>
  {
    if order == [] then None
    else if order[0] in entries then Some(order[0])
    else FirstLive(entries, order[1..])
  }

  lemma {:induction false} EvictOne(entries: Entries, order: seq<string>, max: nat, k: string)
    requires |entries| == max + 1 && k in entries
    requires forall j :: j in entries ==> j in order
    ensures k in Evict(entries, order, max).0 <==> FirstLive(entries, order) != Some(k)
    decreases |order|
  {
    assert order != [];
    assert order == [order[0]] + order[1..];
    if order[0] in entries {
      assert (entries - {order[0]}).Keys == entries.Keys - {order[0]};
      assert |entries - {order[0]}| == max;
    } else {
      assert entries - {order[0]} == entries;
      EvictOne(entries, order[1..], max, k);
    }
  }

  /** The URL just added is remembered exactly unless it is new, the cache was full, and an
      earlier life of the same URL still stands in order before every live key. */
  lemma NewestSurvivesExactly(c: Cache, max: nat, url: string, now: int)
    requires Fits(c, max) && max >= 1
    ensures url in Added(c, max, url, now).entries <==>
              url in c.entries || |c.entries| < max || FirstLive(c.entries[url := now], c.order + [url]) != Some(url)
  {
    var all := c.entries[url := now];
    if url in c.entries {
      assert all.Keys == c.entries.Keys && |all| == |c.entries|;
    } else {
      assert all.Keys == c.entries.Keys + {url} && |all| == |c.entries| + 1;
      if |c.entries| == max { EvictOne(all, c.order + [url], max, url); }
    }
  }

  /** It does happen: with room for one, add a, let it expire, add b, add a again. */
  lemma NewestCanBeEvicted()
    ensures var expired := Cache(map[], ["a"]);
            var c := Added(expired, 1, "b", 10);
            Fits(c, 1) && "a" !in Added(c, 1, "a", 11).entries
  {
    var c := Added(Cache(map[], ["a"]), 1, "b", 10);
    assert |map["b" := 10]| == 1;
    assert c == Cache(map["b" := 10], ["a", "b"]);
    NewestSurvivesExactly(c, 1, "a", 11);
  }

  const DefaultSize: nat := 10_000

  class SeenCache {
    const ttl: int
    const maxSize: nat
    var entries: Entries
    var order: seq<string>

    ghost predicate Valid() reads this
    {
      maxSize >= 1 && ttl > 0 && Fits(Cache(entries, order), maxSize)
    }

    /** A non-positive ttl disables the cache, which the source expresses as a nil pointer. */
    constructor (size: int, ttl: int)
      requires ttl > 0
      ensures Valid() && entries == map[] && this.ttl == ttl
      ensures order == [] && maxSize == if size <= 0 then 10_000 else size
    {
      this.ttl := ttl;
      this.maxSize := if size <= 0 then DefaultSize else size;
      this.entries, this.order := map[], [];
    }

    method Has(url: string, now: int) returns (seen: bool)
      requires Valid()
      modifies this`entries
      ensures Valid()
      ensures seen <==> url in old(entries) && now - old(entries)[url] < ttl
      ensures entries == if url in old(entries) && !seen then old(entries) - {url} else old(entries)
    {
      if url !in entries { return false; }
      if now - entries[url] >= ttl {
        assert (entries - {url}).Keys <= entries.Keys;
        SubsetSize((entries - {url}).Keys, entries.Keys);
        entries := entries - {url};
        return false;
      }
      return true;
    }

    method Add(url: string, now: int)
      requires Valid()
      modifies this
      ensures Valid()
      ensures Cache(entries, order) == Added(Cache(old(entries), old(order)), maxSize, url, now)
    {
      AddedFits(Cache(entries, order), maxSize, url, now);
      if url !in entries { order := order + [url]; }
      entries := entries[url := now];
      ghost var (e, o) := Evict(entries, order, maxSize);
      while |entries| > maxSize && |order| > 0
        invariant Evict(entries, order, maxSize) == (e, o)
        decreases |order|
      {
        var oldest := order[0];
        order := order[1..];
        entries := entries - {oldest};
      }
      if |order| > 2 * maxSize { Shrink(); }
    }

    /** The compaction loop of Add. */
    method Shrink()
      modifies this`order
      ensures order == Compact(entries, old(order))
    {
      var compacted := [];
      var n := 0;
      while n < |order|
        invariant 0 <= n <= |order|
        invariant compacted == Compact(entries, order[..n])
      {
        assert order[..n + 1][..n] == order[..n];
        if order[n] in entries { compacted := compacted + [order[n]]; }
        n := n + 1;
      }
      assert order[..n] == order;
      order := compacted;
    }
  }
}
