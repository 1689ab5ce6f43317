/** Reconciliation of schedule entries with entry goroutines (internal/scheduler/scheduler.go). */
module Scheduler {

  datatype Entry = Entry(crawler: string, url: string, interval: int, priority: int, target: string, timeout: int)

  /** A goroutine is named by the order in which it was spawned. */
  datatype Handle = Handle(snapshot: Entry, id: nat)

  /** live: the goroutines spawned and not cancelled. */
  datatype State = State(running: map<string, Handle>, live: set<nat>, next: nat)

  const Empty := State(map[], {}, 0)

  function Key(e: Entry): string
  {
    e.crawler + "|" + e.url
  }

  predicate Same(a: Entry, b: Entry)
  {
    a.interval == b.interval && a.priority == b.priority && a.target == b.target && a.timeout == b.timeout
  }

  function Spawn(s: State, e: Entry): State
  {
    if e.interval <= 0 then s
    else State(s.running[Key(e) := Handle(e, s.next)], s.live + {s.next}, s.next + 1)
  }

  function Cancel(s: State, key: string): State
    requires key in s.running
  {
    State(s.running - {key}, s.live - {s.running[key].id}, s.next)
  }

  /** Later entries with the same key replace earlier ones. */
  function Desired(entries: seq<Entry>): map<string, Entry>
  {
    if entries == [] then map[]
    else
      var n := |entries| - 1;
      Desired(entries[..n])[Key(entries[n]) := entries[n]]
  }

  /** The first loop of Refresh at one key; a key no longer running is not visited. */
  function Visit(s: State, desired: map<string, Entry>, key: string): State
  {
    if key !in s.running then s
    else if key !in desired then Cancel(s, key)
    else if !Same(s.running[key].snapshot, desired[key]) then Spawn(Cancel(s, key), desired[key])
    else s
  }

  function VisitAll(s: State, desired: map<string, Entry>, order: seq<string>): State
  {
    if order == [] then s
    else Visit(VisitAll(s, desired, order[..|order| - 1]), desired, order[|order| - 1])
  }

  /** The second loop at one key. */
  function Add(s: State, desired: map<string, Entry>, key: string): State
  {
    if key in desired && key !in s.running then Spawn(s, desired[key]) else s
  }

  function AddAll(s: State, desired: map<string, Entry>, order: seq<string>): State
  {
    if order == [] then s
    else Add(AddAll(s, desired, order[..|order| - 1]), desired, order[|order| - 1])
  }

  /** One answer of the resolver, and the orders in which Go happens to walk the two maps. A key
      deleted and added again during the first walk may be met again. */
  datatype Round = Round(entries: seq<Entry>, first: seq<string>, second: seq<string>)

  predicate Walks(s: State, r: Round)
  {
    && (forall k :: k in s.running ==> k in r.first)
    && (forall k :: k in Desired(r.entries) ==> k in r.second)
  }

  function Refreshed(s: State, r: Round): State
  {
    AddAll(VisitAll(s, Desired(r.entries), r.first), Desired(r.entries), r.second)
  }

  function Started(entries: seq<Entry>): State
  {
    if entries == [] then Empty
    else Spawn(Started(entries[..|entries| - 1]), entries[|entries| - 1])
  }

  function Exec(entries: seq<Entry>, rounds: seq<Round>): State
  {
    if rounds == [] then Started(entries)
    else Refreshed(Exec(entries, rounds[..|rounds| - 1]), rounds[|rounds| - 1])
  }

  // ---- invariants

  /** Live goroutines no handle leads to: Refresh can neither see nor cancel them. */
  ghost function Orphans(s: State): set<nat>
  {
    set g | g in s.live && !exists k :: k in s.running && s.running[k].id == g
  }

  predicate Proper(s: State, k: string)
    requires k in s.running
  {
    var h := s.running[k];
    h.id in s.live && h.snapshot.interval > 0 && Key(h.snapshot) == k
  }

  ghost predicate Sane(s: State)
  {
    && (forall k :: k in s.running ==> Proper(s, k))
    && (forall j, k :: j in s.running && k in s.running && s.running[j].id == s.running[k].id ==> j == k)
    && (forall g :: g in s.live ==> g < s.next)
  }

  lemma SpawnNew(s: State, e: Entry)
    requires Sane(s) && Key(e) !in s.running
    ensures Sane(Spawn(s, e)) && Orphans(Spawn(s, e)) == Orphans(s)
  {
    var t := Spawn(s, e);
    if e.interval > 0 {
      forall k | k in t.running ensures Proper(t, k) {
        if k != Key(e) { assert Proper(s, k); }
      }
      forall j, k | j in t.running && k in t.running && t.running[j].id == t.running[k].id ensures j == k {
        if j in s.running { assert Proper(s, j); }
        if k in s.running { assert Proper(s, k); }
      }
      forall g ensures g in Orphans(t) <==> g in Orphans(s) {
        OrphanAfterSpawn(s, e, g);
      }
    }
  }

  lemma OrphanAfterSpawn(s: State, e: Entry, g: nat)
    requires Sane(s) && Key(e) !in s.running && e.interval > 0
    ensures g in Orphans(Spawn(s, e)) <==> g in Orphans(s)
  {
    var t := Spawn(s, e);
    assert t.running[Key(e)].id == s.next;
    if k :| k in s.running && s.running[k].id == g { assert t.running[k].id == g; }
  }

  lemma CancelKnown(s: State, key: string)
    requires Sane(s) && key in s.running
    ensures Sane(Cancel(s, key)) && Orphans(Cancel(s, key)) == Orphans(s)
  {
    var t := Cancel(s, key);
    forall k | k in t.running ensures Proper(t, k) { assert Proper(s, k); }
    forall g ensures g in Orphans(t) <==> g in Orphans(s) {
      if k :| k in s.running && s.running[k].id == g {
        if k != key { assert t.running[k].id == g; }
      }
    }
  }

  /** What has become of one key since state s. */
  ghost predicate Tracks(s: State, t: State, desired: map<string, Entry>, k: string)
  {
    && s.next <= t.next
    && (k in s.running && k in desired && Same(s.running[k].snapshot, desired[k]) ==>
          k in t.running && t.running[k] == s.running[k])
    && (k in t.running ==>
          (k in s.running && t.running[k] == s.running[k])
          || (k in desired && t.running[k].snapshot == desired[k] && t.running[k].id >= s.next))
  }

  /** Key k agrees with what is desired, so far as it runs at all. */
  predicate Settled(t: State, desired: map<string, Entry>, k: string)
  {
    k in t.running ==> k in desired && Same(t.running[k].snapshot, desired[k])
  }

  lemma VisitStep(s: State, t: State, desired: map<string, Entry>, key: string)
    requires Sane(t) && (forall k :: Tracks(s, t, desired, k))
    requires forall k :: k in desired ==> Key(desired[k]) == k
    ensures var u := Visit(t, desired, key);
            && Sane(u) && Orphans(u) == Orphans(t)
            && (forall k :: Tracks(s, u, desired, k))
            && (forall k :: Settled(t, desired, k) || k == key ==> Settled(u, desired, k))
  {
    var u := Visit(t, desired, key);
    if key in t.running {
      if key !in desired {
        CancelKnown(t, key);
      } else if !Same(t.running[key].snapshot, desired[key]) {
        CancelKnown(t, key);
        SpawnNew(Cancel(t, key), desired[key]);
      }
    }
    forall k ensures Tracks(s, u, desired, k) { assert Tracks(s, t, desired, k); }
  }

  lemma {:induction false} VisitAllSettles(s: State, desired: map<string, Entry>, order: seq<string>)
    requires Sane(s) && forall k :: k in desired ==> Key(desired[k]) == k
    ensures var t := VisitAll(s, desired, order);
            && Sane(t) && Orphans(t) == Orphans(s)
            && (forall k :: Tracks(s, t, desired, k))
            && (forall k :: k in order || k !in s.running ==> Settled(t, desired, k))
  {
    if order != [] {
      var n := |order| - 1;
      VisitAllSettles(s, desired, order[..n]);
      VisitStep(s, VisitAll(s, desired, order[..n]), desired, order[n]);
      assert order == order[..n] + [order[n]];
    }
  }

  lemma {:induction false} AddAllCompletes(s: State, t: State, desired: map<string, Entry>, order: seq<string>)
    requires Sane(t) && (forall k :: k in desired ==> Key(desired[k]) == k)
    requires forall k :: Tracks(s, t, desired, k) && Settled(t, desired, k)
    ensures var u := AddAll(t, desired, order);
            && Sane(u) && Orphans(u) == Orphans(t)
            && (forall k :: Tracks(s, u, desired, k) && Settled(u, desired, k))
            && (forall k :: k in order && k in desired && desired[k].interval > 0 ==> k in u.running)
  {
    if order != [] {
      var n := |order| - 1;
      AddAllCompletes(s, t, desired, order[..n]);
      var before := AddAll(t, desired, order[..n]);
      var u := AddAll(t, desired, order);
      if order[n] in desired && order[n] !in before.running { SpawnNew(before, desired[order[n]]); }
      assert order == order[..n] + [order[n]];
      forall k ensures Tracks(s, u, desired, k) && Settled(u, desired, k) {
        assert Tracks(s, before, desired, k) && Settled(before, desired, k);
      }
    }
  }

  lemma {:induction false} DesiredKeyed(entries: seq<Entry>)
    ensures forall k :: k in Desired(entries) ==> Key(Desired(entries)[k]) == k
  {
    if entries != [] { DesiredKeyed(entries[..|entries| - 1]); }
  }

  /** The desired entry of a key is the last one with that key. */
  lemma {:induction false} DesiredIsLast(entries: seq<Entry>, i: nat)
    requires i < |entries| && forall j :: i < j < |entries| ==> Key(entries[j]) != Key(entries[i])
    ensures Key(entries[i]) in Desired(entries) && Desired(entries)[Key(entries[i])] == entries[i]
  {
    if i < |entries| - 1 { DesiredIsLast(entries[..|entries| - 1], i); }
  }

  /** Every entry's key is desired, and what is desired for a key is an entry with that key. */
  lemma {:induction false} DesiredFromEntries(entries: seq<Entry>, k: string)
    ensures k in Desired(entries) ==> Desired(entries)[k] in entries && Key(Desired(entries)[k]) == k
    ensures k !in Desired(entries) ==> forall e :: e in entries ==> Key(e) != k
  {
    if entries != [] {
      var n := |entries| - 1;
      DesiredFromEntries(entries[..n], k);
      assert entries == entries[..n] + [entries[n]];
    }
  }

  /** Exactly the desired entries with a positive interval run; an unchanged one keeps its
      goroutine, every other one gets a new goroutine; nothing else is spawned or orphaned. */
  lemma RefreshReconciles(s: State, r: Round)
    requires Sane(s) && Walks(s, r)
    ensures var t, desired := Refreshed(s, r), Desired(r.entries);
            && Sane(t) && Orphans(t) == Orphans(s)
            && (forall k :: k in t.running <==> k in desired && desired[k].interval > 0)
            && (forall k :: k in t.running ==>
                  if k in s.running && Same(s.running[k].snapshot, desired[k])
                  then t.running[k] == s.running[k]
                  else t.running[k].snapshot == desired[k] && t.running[k].id !in s.live)
  {
    var desired := Desired(r.entries);
    DesiredKeyed(r.entries);
    VisitAllSettles(s, desired, r.first);
    var mid := VisitAll(s, desired, r.first);
    AddAllCompletes(s, mid, desired, r.second);
    var t := Refreshed(s, r);
    forall k | k in t.running ensures k in desired && desired[k].interval > 0 {
      assert Settled(t, desired, k) && Proper(t, k);
    }
    forall k | k in t.running
      ensures if k in s.running && Same(s.running[k].snapshot, desired[k])
              then t.running[k] == s.running[k]
              else t.running[k].snapshot == desired[k] && t.running[k].id !in s.live
    {
      assert Tracks(s, t, desired, k) && Settled(t, desired, k);
    }
  }

  // ---- a repeated refresh

  predicate InStep(s: State, desired: map<string, Entry>)
  {
    && (forall k :: k in s.running ==> k in desired && Same(s.running[k].snapshot, desired[k]))
    && (forall k :: k in desired && desired[k].interval > 0 ==> k in s.running)
  }

  lemma {:induction false} InStepStays(s: State, desired: map<string, Entry>, first: seq<string>, second: seq<string>)
    requires InStep(s, desired)
    ensures VisitAll(s, desired, first) == s && AddAll(s, desired, second) == s
    decreases |first| + |second|
  {
    if first != [] {
      InStepStays(s, desired, first[..|first| - 1], second);
    } else if second != [] {
      InStepStays(s, desired, first, second[..|second| - 1]);
    }
  }

  /** A second refresh with the same entries, in whatever map order, spawns and cancels nothing. */
  lemma RepeatedRefreshIsIdle(s: State, r: Round, again: Round)
    requires Sane(s) && Walks(s, r) && again.entries == r.entries
    ensures Refreshed(Refreshed(s, r), again) == Refreshed(s, r)
  {
    RefreshReconciles(s, r);
    var t, desired := Refreshed(s, r), Desired(r.entries);
    assert InStep(t, desired);
    InStepStays(t, desired, again.first, again.second);
  }

  // ---- Start, and whole runs

  predicate DistinctKeys(entries: seq<Entry>)
  {
    forall i, j :: 0 <= i < j < |entries| && entries[i].interval > 0 && entries[j].interval > 0 ==>
      Key(entries[i]) != Key(entries[j])
  }

  lemma {:induction false} StartIsSane(entries: seq<Entry>)
    ensures Sane(Started(entries))
    ensures forall k :: k in Started(entries).running <==>
              exists i :: 0 <= i < |entries| && entries[i].interval > 0 && Key(entries[i]) == k
    ensures Orphans(Started(entries)) == {} <==> DistinctKeys(entries)
  {
    if entries != [] {
      var n := |entries| - 1;
      var before, e := entries[..n], entries[n];
      StartIsSane(before);
      var s, t := Started(before), Started(entries);
      forall k ensures k in t.running <==>
          exists i :: 0 <= i < |entries| && entries[i].interval > 0 && Key(entries[i]) == k
      {
        if i :| 0 <= i < |before| && before[i].interval > 0 && Key(before[i]) == k { assert entries[i] == before[i]; }
        if i :| 0 <= i < |entries| && entries[i].interval > 0 && Key(entries[i]) == k {
          if i < n { assert before[i] == entries[i]; }
        }
        if e.interval > 0 && Key(e) == k { assert entries[n].interval > 0; }
      }
      if e.interval <= 0 {
        DistinctSkips(entries);
      } else if Key(e) !in s.running {
        SpawnNew(s, e);
        DistinctExtends(entries);
      } else {
        SpawnOver(s, e);
        var i :| 0 <= i < |before| && before[i].interval > 0 && Key(before[i]) == Key(e);
        assert entries[i] == before[i];
      }
    }
  }

  /** Start runs every entry with a positive interval, each on a goroutine of its own with its own
      snapshot, unless a later one with the same key takes its place. */
  lemma {:induction false} StartRunsEach(entries: seq<Entry>, i: nat)
    requires i < |entries| && entries[i].interval > 0
    requires forall j :: i < j < |entries| && entries[j].interval > 0 ==> Key(entries[j]) != Key(entries[i])
    ensures var s := Started(entries);
            && Key(entries[i]) in s.running && s.running[Key(entries[i])].snapshot == entries[i]
            && s.running[Key(entries[i])].id in s.live
  {
    StartIsSane(entries);
    var n := |entries| - 1;
    if i < n { StartRunsEach(entries[..n], i); }
    assert Key(entries[i]) in Started(entries).running && Proper(Started(entries), Key(entries[i]));
  }

  lemma DistinctSkips(entries: seq<Entry>)
    requires entries != [] && entries[|entries| - 1].interval <= 0
    ensures DistinctKeys(entries) <==> DistinctKeys(entries[..|entries| - 1])
  {
    var before := entries[..|entries| - 1];
    assert forall i :: 0 <= i < |before| ==> before[i] == entries[i];
    if DistinctKeys(before) {
      forall i, j | 0 <= i < j < |entries| && entries[i].interval > 0 && entries[j].interval > 0
        ensures Key(entries[i]) != Key(entries[j])
      {
        assert before[i] == entries[i] && before[j] == entries[j];
      }
    }
    if DistinctKeys(entries) {
      forall i, j | 0 <= i < j < |before| && before[i].interval > 0 && before[j].interval > 0
        ensures Key(before[i]) != Key(before[j])
      {
        assert before[i] == entries[i] && before[j] == entries[j];
      }
    }
  }

  lemma DistinctExtends(entries: seq<Entry>)
    requires entries != []
    requires var n := |entries| - 1;
             entries[n].interval > 0 && forall i :: 0 <= i < n && entries[i].interval > 0 ==> Key(entries[i]) != Key(entries[n])
    ensures DistinctKeys(entries) <==> DistinctKeys(entries[..|entries| - 1])
  {
    var n := |entries| - 1;
    var before := entries[..n];
    if DistinctKeys(before) {
      forall i, j | 0 <= i < j < |entries| && entries[i].interval > 0 && entries[j].interval > 0
        ensures Key(entries[i]) != Key(entries[j])
      {
        assert before[i] == entries[i];
        if j < n { assert before[j] == entries[j]; }
      }
    }
    if DistinctKeys(entries) {
      forall i, j | 0 <= i < j < |before| && before[i].interval > 0 && before[j].interval > 0
        ensures Key(before[i]) != Key(before[j])
      {
        assert before[i] == entries[i] && before[j] == entries[j];
      }
    }
  }

  /** Spawning over a running key orphans its goroutine. */
  lemma SpawnOver(s: State, e: Entry)
    requires Sane(s) && e.interval > 0 && Key(e) in s.running
    ensures Sane(Spawn(s, e))
    ensures s.running[Key(e)].id in Orphans(Spawn(s, e))
  {
    var t := Spawn(s, e);
    var lost := s.running[Key(e)].id;
    assert Proper(s, Key(e));
    forall k | k in t.running ensures Proper(t, k) && t.running[k].id != lost {
      if k != Key(e) { assert Proper(s, k); }
    }
    forall j, k | j in t.running && k in t.running && t.running[j].id == t.running[k].id ensures j == k {
      if j != Key(e) { assert Proper(s, j); }
      if k != Key(e) { assert Proper(s, k); }
    }
  }

  ghost predicate Walked(entries: seq<Entry>, rounds: seq<Round>)
  {
    forall i :: 0 <= i < |rounds| ==> Walks(Exec(entries, rounds[..i]), rounds[i])
  }

  lemma {:induction false} RunKeepsOrphans(entries: seq<Entry>, rounds: seq<Round>)
    requires Walked(entries, rounds)
    ensures Sane(Exec(entries, rounds)) && Orphans(Exec(entries, rounds)) == Orphans(Started(entries))
  {
    if rounds == [] {
      StartIsSane(entries);
    } else {
      var n := |rounds| - 1;
      var before := rounds[..n];
      assert Walked(entries, before) by {
        forall i | 0 <= i < |before| ensures Walks(Exec(entries, before[..i]), before[i]) {
          assert before[..i] == rounds[..i] && before[i] == rounds[i];
        }
      }
      RunKeepsOrphans(entries, before);
      RefreshReconciles(Exec(entries, before), rounds[n]);
    }
  }

  /** After any sequence of refreshes, the live goroutines are exactly one per running key, if and
      only if the entries given to Start that have a positive interval have distinct keys. No
      refresh ever repairs a bad start. */
  lemma OneGoroutinePerKey(entries: seq<Entry>, rounds: seq<Round>)
    requires Walked(entries, rounds)
    ensures var s := Exec(entries, rounds);
            && (forall j, k :: j in s.running && k in s.running && s.running[j].id == s.running[k].id ==> j == k)
            && (forall k :: k in s.running ==> s.running[k].id in s.live)
            && ((forall g :: g in s.live ==> exists k :: k in s.running && s.running[k].id == g) <==> DistinctKeys(entries))
  {
    RunKeepsOrphans(entries, rounds);
    StartIsSane(entries);
    var s := Exec(entries, rounds);
    forall k | k in s.running ensures s.running[k].id in s.live { assert Proper(s, k); }
    if Orphans(s) != {} {
      var g :| g in Orphans(s);
      assert g in s.live && !exists k :: k in s.running && s.running[k].id == g;
    } else {
      forall g | g in s.live ensures exists k :: k in s.running && s.running[k].id == g {
        assert g !in Orphans(s);
      }
    }
  }

  // ---- entry keys

  lemma SameTail(a: string, u: string, v: string)
    requires a + u == a + v
    ensures u == v
  {
    assert (a + u)[|a|..] == u && (a + v)[|a|..] == v;
  }

  /** Two crawler names can share a key for different entries exactly when one name continues the
      other with a bar. */
  lemma KeysClashExactly(a: string, b: string)
    ensures (exists u, v :: a + "|" + u == b + "|" + v && (a, u) != (b, v))
            <==> a != b && (a + "|" <= b + "|" || b + "|" <= a + "|")
  {
    if u, v :| a + "|" + u == b + "|" + v && (a, u) != (b, v) {
      if a == b {
        SameTail(a + "|", u, v);
      } else {
        var whole := a + "|" + u;
        assert whole[..|a| + 1] == a + "|" && whole[..|b| + 1] == b + "|";
      }
    }
    if a != b && a + "|" <= b + "|" {
      var u := (b + "|")[|a| + 1..];
      assert a + "|" + u == b + "|" + "";
    }
    if a != b && b + "|" <= a + "|" {
      var v := (a + "|")[|b| + 1..];
      assert a + "|" + "" == b + "|" + v;
    }
  }

  /** With crawler names free of bars, an unchanged entry is unchanged in every field. */
  lemma SameKeySameEntry(a: Entry, b: Entry)
    requires '|' !in a.crawler && '|' !in b.crawler && Key(a) == Key(b) && Same(a, b)
    ensures a == b
  {
    if a.crawler != b.crawler {
      KeysClashExactly(a.crawler, b.crawler);
      assert a.crawler + "|" + a.url == b.crawler + "|" + b.url;
      var x, y := a.crawler + "|", b.crawler + "|";
      if x <= y { BarFreePrefix(a.crawler, b.crawler); } else { BarFreePrefix(b.crawler, a.crawler); }
    } else {
      SameTail(a.crawler + "|", a.url, b.url);
    }
  }

  lemma BarFreePrefix(a: string, b: string)
    requires '|' !in b && a + "|" <= b + "|"
    ensures a == b
  {
    var x, y := a + "|", b + "|";
    assert forall i :: 0 <= i < |b| ==> y[i] == b[i] != '|';
    assert y[|a|] == x[|a|] == '|';
    assert x[..|a|] == a && y[..|b|] == b;
  }

  // ---- the object

  class Scheduler {
    var running: map<string, Handle>
    var live: set<nat>
    var next: nat

    constructor ()
      ensures Snapshot() == Empty
    {
      running, live, next := map[], {}, 0;
    }

    function Snapshot(): State
      reads this
    {
      State(running, live, next)
    }

    method SpawnEntryLocked(entry: Entry)
      modifies this
      ensures Snapshot() == Spawn(old(Snapshot()), entry)
    {
      if entry.interval <= 0 { return; }
      running := running[Key(entry) := Handle(entry, next)];
      live := live + {next};
      next := next + 1;
    }

    method Start(entries: seq<Entry>)
      requires Snapshot() == Empty
      modifies this
      ensures Snapshot() == Started(entries)
    {
      var i := 0;
      while i < |entries|
        invariant 0 <= i <= |entries| && Snapshot() == Started(entries[..i])
      {
        assert entries[..i + 1][..i] == entries[..i];
        SpawnEntryLocked(entries[i]);
        i := i + 1;
      }
      assert entries[..i] == entries;
    }

    /** resolved is false when the resolver fails. */
    method Refresh(r: Round, resolved: bool) returns (failed: bool)
      requires Walks(Snapshot(), r)
      modifies this
      ensures failed <==> !resolved
      ensures Snapshot() == if resolved then Refreshed(old(Snapshot()), r) else old(Snapshot())
    {
      if !resolved { return true; }
      var desired := CollectDesired(r.entries);
      CancelStale(desired, r.first);
      var i := 0;
      ghost var mid := Snapshot();
      while i < |r.second|
        invariant 0 <= i <= |r.second| && Snapshot() == AddAll(mid, desired, r.second[..i])
      {
        assert r.second[..i + 1][..i] == r.second[..i];
        var key := r.second[i];
        if key in desired && key !in running { SpawnEntryLocked(desired[key]); }
        i := i + 1;
      }
      assert r.second[..i] == r.second;
      failed := false;
    }

    method CollectDesired(entries: seq<Entry>) returns (desired: map<string, Entry>)
      ensures desired == Desired(entries)
    {
      desired := map[];
      var i := 0;
      while i < |entries|
        invariant 0 <= i <= |entries| && desired == Desired(entries[..i])
      {
        assert entries[..i + 1][..i] == entries[..i];
        desired := desired[Key(entries[i]) := entries[i]];
        i := i + 1;
      }
      assert entries[..i] == entries;
    }

    /** The first loop of Refresh. */
    method CancelStale(desired: map<string, Entry>, order: seq<string>)
      modifies this
      ensures Snapshot() == VisitAll(old(Snapshot()), desired, order)
    {
      var i := 0;
      while i < |order|
        invariant 0 <= i <= |order| && Snapshot() == VisitAll(old(Snapshot()), desired, order[..i])
      {
        assert order[..i + 1][..i] == order[..i];
        var key := order[i];
        if key in running {
          var h := running[key];
          if key !in desired {
            live, running := live - {h.id}, running - {key};
          } else if !Same(h.snapshot, desired[key]) {
            live, running := live - {h.id}, running - {key};
            SpawnEntryLocked(desired[key]);
          }
        }
        i := i + 1;
      }
      assert order[..i] == order;
    }
  }
}
