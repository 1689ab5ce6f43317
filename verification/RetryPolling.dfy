/** One retry poller as an object, and the bound on how long a due job waits for it. */
module RetryPolling {
  import opened Sets
  import opened Strings
  import opened ZSet
  import opened RetryQueue

  datatype Ack = AckDone | AckLost(removed: bool)

  /** What happens to one item: Kafka's answer, the fate of the ack or of the reschedule. */
  datatype Outcome = Outcome(accepted: bool, ack: Ack, at: int, stored: bool)

  function Settle(db: Db, id: string, ack: Ack): Db
  {
    match ack
    case AckDone => Acknowledge(db, id)
    case AckLost(removed) => if removed then db.(zset := db.zset - {id}) else db
  }

  function Republish(c: Config, db: Db, item: Due, o: Outcome): Db
  {
    if !c.readable(item.payload) || o.accepted then Settle(db, item.id, o.ack)
    else if o.stored then Schedule(db, item.id, item.payload, o.at)
    else db
  }

  function RepublishAll(c: Config, db: Db, items: seq<Due>, outcomes: seq<Outcome>): Db
    requires |items| <= |outcomes|
  {
    if items == [] then db
    else
      var n := |items| - 1;
      Republish(c, RepublishAll(c, db, items[..n], outcomes), items[n], outcomes[n])
  }

  /** The due items whose entry is there, in order. */
  function Found(entries: map<string, string>, ids: seq<string>): seq<Due>
  {
    if ids == [] then []
    else
      var n := |ids| - 1;
      Found(entries, ids[..n]) + (if ids[n] in entries then [Due(ids[n], entries[ids[n]])] else [])
  }

  lemma {:induction false} FoundExactly(entries: map<string, string>, ids: seq<string>, d: Due)
    ensures d in Found(entries, ids) <==> d.id in ids && d.id in entries && entries[d.id] == d.payload
    ensures |Found(entries, ids)| <= |ids|
  {
    if ids != [] {
      var n := |ids| - 1;
      FoundExactly(entries, ids[..n], d);
      assert ids == ids[..n] + [ids[n]];
    }
  }

  /** In queue order, and so without repetition. */
  ghost predicate InQueueOrder(z: ZSet, items: seq<Due>)
  {
    && (forall i :: 0 <= i < |items| ==> items[i].id in z)
    && (forall i, j :: 0 <= i < j < |items| ==> Before(z, items[i].id, items[j].id))
  }

  lemma {:induction false} FoundInOrder(z: ZSet, entries: map<string, string>, ids: seq<string>)
    requires forall i :: 0 <= i < |ids| ==> ids[i] in z
    requires forall i, j :: 0 <= i < j < |ids| ==> Before(z, ids[i], ids[j])
    ensures InQueueOrder(z, Found(entries, ids))
  {
    if ids != [] {
      var n := |ids| - 1;
      FoundInOrder(z, entries, ids[..n]);
      var before := Found(entries, ids[..n]);
      forall i | 0 <= i < |before| ensures Before(z, before[i].id, ids[n]) {
        FoundExactly(entries, ids[..n], before[i]);
        var k :| 0 <= k < n && ids[k] == before[i].id;
      }
    }
  }

  /** The items Forward is called with: those a message can be built from, in order. */
  function Forwards(c: Config, items: seq<Due>): seq<Due>
  {
    if items == [] then []
    else
      var n := |items| - 1;
      Forwards(c, items[..n]) + (if c.readable(items[n].payload) then [items[n]] else [])
  }

  lemma {:induction false} ForwardsExactly(c: Config, items: seq<Due>, d: Due)
    ensures d in Forwards(c, items) <==> d in items && c.readable(d.payload)
  {
    if items != [] {
      var n := |items| - 1;
      ForwardsExactly(c, items[..n], d);
      assert items == items[..n] + [items[n]];
    }
  }

  lemma {:induction false} ForwardsInOrder(c: Config, z: ZSet, items: seq<Due>)
    requires InQueueOrder(z, items)
    ensures InQueueOrder(z, Forwards(c, items))
  {
    if items != [] {
      var n := |items| - 1;
      ForwardsInOrder(c, z, items[..n]);
      var before := Forwards(c, items[..n]);
      forall i | 0 <= i < |before| ensures Before(z, before[i].id, items[n].id) {
        ForwardsExactly(c, items[..n], before[i]);
        var k :| 0 <= k < n && items[k] == before[i];
      }
    }
  }

  // ---- what a poll leaves of each job

  predicate SameJob(before: Db, after: Db, id: string)
  {
    && (id in after.zset <==> id in before.zset) && (id in before.zset ==> after.zset[id] == before.zset[id])
    && (id in after.entries <==> id in before.entries) && (id in before.entries ==> after.entries[id] == before.entries[id])
  }

  /** A job Kafka refused is queued again with its payload, or as it was where the reschedule failed. A
      job Kafka took, or that cannot be read, is gone, or as much of it is left as the ack left. */
  predicate JobAfter(c: Config, before: Db, after: Db, item: Due, o: Outcome)
  {
    var id := item.id;
    if c.readable(item.payload) && !o.accepted then
      if o.stored then id in after.zset && after.zset[id] == o.at && id in after.entries && after.entries[id] == item.payload
      else SameJob(before, after, id)
    else if o.ack.AckDone? then id !in after.zset && id !in after.entries
    else if o.ack.removed then
      && id !in after.zset && (id in after.entries <==> id in before.entries)
      && (id in before.entries ==> after.entries[id] == before.entries[id])
    else SameJob(before, after, id)
  }

  lemma RepublishElsewhere(c: Config, db: Db, item: Due, o: Outcome, id: string)
    requires id != item.id
    ensures SameJob(db, Republish(c, db, item, o), id)
  {
  }

  /** Every republished job ends as its own outcome says, whatever happens to the jobs around it, and
      nothing else changes. */
  lemma {:induction false} RepublishedExactly(c: Config, db: Db, items: seq<Due>, outcomes: seq<Outcome>, i: nat, id: string)
    requires i < |items| <= |outcomes|
    requires forall j, k :: 0 <= j < k < |items| ==> items[j].id != items[k].id
    ensures JobAfter(c, db, RepublishAll(c, db, items, outcomes), items[i], outcomes[i])
    ensures (forall j :: 0 <= j < |items| ==> items[j].id != id) ==> SameJob(db, RepublishAll(c, db, items, outcomes), id)
  {
    var n := |items| - 1;
    UntouchedByOthers(c, db, items[..n], outcomes, items[n].id);
    if i < n {
      RepublishedExactly(c, db, items[..n], outcomes, i, id);
      RepublishElsewhere(c, RepublishAll(c, db, items[..n], outcomes), items[n], outcomes[n], items[i].id);
    }
    if forall j :: 0 <= j < |items| ==> items[j].id != id { UntouchedByOthers(c, db, items, outcomes, id); }
  }

  lemma {:induction false} UntouchedByOthers(c: Config, db: Db, items: seq<Due>, outcomes: seq<Outcome>, id: string)
    requires |items| <= |outcomes| && forall j :: 0 <= j < |items| ==> items[j].id != id
    ensures SameJob(db, RepublishAll(c, db, items, outcomes), id)
  {
    if items != [] {
      var n := |items| - 1;
      UntouchedByOthers(c, db, items[..n], outcomes, id);
      RepublishElsewhere(c, RepublishAll(c, db, items[..n], outcomes), items[n], outcomes[n], id);
    }
  }

  /** The state a poll of these ids leaves: every job found is settled by its own outcome, a stale id is
      out of the sorted set, and every other job is as it was. */
  ghost predicate PolledExactly(c: Config, before: Db, after: Db, ids: seq<string>, items: seq<Due>, outcomes: seq<Outcome>)
    requires |items| <= |outcomes|
  {
    && (forall i :: 0 <= i < |items| ==> JobAfter(c, before, after, items[i], outcomes[i]))
    && (forall id :: id in ids && id !in before.entries ==> id !in after.zset && id !in after.entries)
    && (forall id :: id !in ids ==> SameJob(before, after, id))
  }

  lemma PollsExactly(c: Config, db: Db, ids: seq<string>, outcomes: seq<Outcome>)
    requires forall i :: 0 <= i < |ids| ==> ids[i] in db.zset
    requires forall i, j :: 0 <= i < j < |ids| ==> Before(db.zset, ids[i], ids[j])
    requires |Found(db.entries, ids)| <= |outcomes|
    ensures var items := Found(db.entries, ids);
            PolledExactly(c, db, RepublishAll(c, db.(zset := db.zset - Missing(db, ids)), items, outcomes), ids, items, outcomes)
  {
    var items, base := Found(db.entries, ids), db.(zset := db.zset - Missing(db, ids));
    var t := RepublishAll(c, base, items, outcomes);
    FoundInOrder(db.zset, db.entries, ids);
    forall j, k | 0 <= j < k < |items| ensures items[j].id != items[k].id { BeforeTotal(db.zset, items[j].id, items[k].id); }
    forall i | 0 <= i < |items| ensures JobAfter(c, db, t, items[i], outcomes[i]) {
      FoundExactly(db.entries, ids, items[i]);
      RepublishedExactly(c, base, items, outcomes, i, "");
    }
    forall id | id !in ids || id !in db.entries ensures SameJob(base, t, id) {
      forall j | 0 <= j < |items| ensures items[j].id != id { FoundExactly(db.entries, ids, items[j]); }
      UntouchedByOthers(c, base, items, outcomes, id);
    }
  }

  /** Forward was called, in queue order, with exactly the jobs of ids that have a readable entry. */
  ghost predicate ForwardedExactly(c: Config, db: Db, ids: seq<string>, sent: seq<Due>)
  {
    && InQueueOrder(db.zset, sent)
    && (forall d :: d in sent <==>
          d.id in ids && d.id in db.entries && db.entries[d.id] == d.payload && c.readable(d.payload))
  }

  lemma ForwardsThose(c: Config, db: Db, ids: seq<string>)
    requires forall i :: 0 <= i < |ids| ==> ids[i] in db.zset
    requires forall i, j :: 0 <= i < j < |ids| ==> Before(db.zset, ids[i], ids[j])
    ensures ForwardedExactly(c, db, ids, Forwards(c, Found(db.entries, ids)))
  {
    var items := Found(db.entries, ids);
    FoundInOrder(db.zset, db.entries, ids);
    ForwardsInOrder(c, db.zset, items);
    forall d ensures d in Forwards(c, items) <==>
        d.id in ids && d.id in db.entries && db.entries[d.id] == d.payload && c.readable(d.payload)
    {
      FoundExactly(db.entries, ids, d);
      ForwardsExactly(c, items, d);
    }
  }

  /** In queue order, exactly the jobs of ids that have an entry, with their payloads. */
  ghost predicate FoundAll(db: Db, ids: seq<string>, out: seq<Due>)
  {
    && InQueueOrder(db.zset, out)
    && (forall d :: d in out <==> d.id in ids && d.id in db.entries && db.entries[d.id] == d.payload)
  }

  lemma FindsAll(db: Db, ids: seq<string>)
    requires forall i :: 0 <= i < |ids| ==> ids[i] in db.zset
    requires forall i, j :: 0 <= i < j < |ids| ==> Before(db.zset, ids[i], ids[j])
    ensures FoundAll(db, ids, Found(db.entries, ids))
  {
    FoundInOrder(db.zset, db.entries, ids);
    forall d { FoundExactly(db.entries, ids, d); }
  }

  datatype PeekFault = Healthy | RangeFails | GetsFail | RemoveFails

  function Missing(db: Db, ids: seq<string>): set<string>
  {
    set id | id in ids && id !in db.entries
  }

  predicate PeekFails(db: Db, ids: seq<string>, fault: PeekFault)
  {
    fault == RangeFails || (ids != [] && fault == GetsFail) || (Missing(db, ids) != {} && fault == RemoveFails)
  }

  class RetryScheduler {
    const config: Config
    var db: Db
    var idleTicks: nat
    ghost var forwarded: seq<Due>   // what Forward was called with

    constructor (config: Config)
      ensures this.config == config && db == Db(map[], map[]) && idleTicks == 0 && forwarded == []
    {
      this.config, this.db, this.idleTicks, this.forwarded := config, Db(map[], map[]), 0, [];
    }

    method EnqueueRetry(id: string, payload: string, at: int, lost: bool, applied: bool) returns (ok: bool)
      modifies this`db
      ensures id == "" || payload == "" ==> !ok && db == old(db)
      ensures id != "" && payload != "" ==>
                && (ok <==> !lost)
                && db == (if !lost || applied then Db(old(db).zset[id := at], old(db).entries[id := payload]) else old(db))
    {
      if id == "" || payload == "" { return false; }
      if !lost || applied {
        db := Db(db.zset[id := at], db.entries[id := payload]);
      }
      ok := !lost;
    }

    /** ids is Redis's answer to the range query. */
    method PeekDueRetries(now: int, limit: int, ids: seq<string>, fault: PeekFault) returns (out: seq<Due>, failed: bool)
      requires limit > 0 ==> IsRange(db.zset, now, limit, ids)
      modifies this`db
      ensures limit <= 0 ==> out == [] && !failed && db == old(db)
      ensures limit > 0 ==>
                && failed == PeekFails(old(db), ids, fault)
                && (failed ==> db == old(db))
                && (!failed ==> out == Found(old(db).entries, ids)
                                && db == old(db).(zset := old(db).zset - Missing(old(db), ids)))
      ensures limit > 0 && !failed ==>
                FoundAll(old(db), ids, out)
    {
      out, failed := [], false;
      if limit <= 0 { return; }
      if fault == RangeFails { return [], true; }
      if ids == [] { return; }
      if fault == GetsFail { return [], true; }
      var stale;
      out, stale := Triage(ids);
      FindsAll(db, ids);
      if stale != {} {
        if fault == RemoveFails { return out, true; }
        db := db.(zset := db.zset - stale);
      }
    }

    /** Its loop over the GETs: the items found and the stale ids. */
    method Triage(ids: seq<string>) returns (out: seq<Due>, stale: set<string>)
      ensures out == Found(db.entries, ids) && stale == Missing(db, ids)
    {
      out, stale := [], {};
      var n := 0;
      while n < |ids|
        invariant 0 <= n <= |ids|
        invariant out == Found(db.entries, ids[..n])
        invariant stale == Missing(db, ids[..n])
      {
        assert ids[..n + 1][..n] == ids[..n];
        assert forall id :: id in ids[..n + 1] <==> id in ids[..n] || id == ids[n];
        if ids[n] in db.entries {
          out := out + [Due(ids[n], db.entries[ids[n]])];
        } else {
          stale := stale + {ids[n]};
        }
        n := n + 1;
      }
      assert ids[..n] == ids;
    }

    method AckRetry(id: string, ack: Ack) returns (ok: bool)
      modifies this`db
      ensures id == "" ==> !ok && db == old(db)
      ensures id != "" ==>
                && (ok <==> ack.AckDone?)
                && db.zset == (if ack == AckLost(false) then old(db).zset else old(db).zset - {id})
                && db.entries == (if ack.AckLost? then old(db).entries else old(db).entries - {id})
    {
      if id == "" { return false; }
      ok := ack.AckDone?;
      match ack {
        case AckDone => db := Db(db.zset - {id}, db.entries - {id});
        case AckLost(removed) => if removed { db := db.(zset := db.zset - {id}); }
      }
    }

    /** republish: one due item. */
    method RepublishItem(item: Due, o: Outcome)
      requires item.id != "" && item.payload != ""
      modifies this`db, this`forwarded
      ensures db == Republish(config, old(db), item, o)
      ensures JobAfter(config, old(db), db, item, o)
      ensures forwarded == old(forwarded) + if config.readable(item.payload) then [item] else []
    {
      if config.readable(item.payload) { forwarded := forwarded + [item]; }
      if !config.readable(item.payload) || o.accepted {
        var _ := AckRetry(item.id, o.ack);
      } else {
        var _ := EnqueueRetry(item.id, item.payload, o.at, !o.stored, false);
      }
    }

    /** The loop of pollOnce. */
    method RepublishEach(due: seq<Due>, outcomes: seq<Outcome>)
      requires |due| <= |outcomes| && forall d :: d in due ==> d.id != "" && d.payload != ""
      modifies this`db, this`forwarded
      ensures db == RepublishAll(config, old(db), due, outcomes)
      ensures forwarded == old(forwarded) + Forwards(config, due)
    {
      var n := 0;
      while n < |due|
        invariant 0 <= n <= |due|
        invariant db == RepublishAll(config, old(db), due[..n], outcomes)
        invariant forwarded == old(forwarded) + Forwards(config, due[..n])
      {
        assert due[..n + 1][..n] == due[..n];
        assert due[n] in due;
        RepublishItem(due[n], outcomes[n]);
        n := n + 1;
      }
      assert due[..n] == due;
    }

    method PollOnce(now: int, ids: seq<string>, fault: PeekFault, outcomes: seq<Outcome>)
      requires config.batch > 0 && IsRange(db.zset, now, config.batch, ids) && |outcomes| >= |ids|
      requires forall id :: id in db.zset ==> id != ""
      requires forall id :: id in db.entries ==> db.entries[id] != ""
      modifies this
      ensures PeekFails(old(db), ids, fault) ==> db == old(db) && idleTicks == old(idleTicks) && forwarded == old(forwarded)
      ensures !PeekFails(old(db), ids, fault) ==>
                var items := Found(old(db).entries, ids);
                && |items| <= |outcomes|
                && db == RepublishAll(config, old(db).(zset := old(db).zset - Missing(old(db), ids)), items, outcomes)
                && idleTicks == (if items == [] then old(idleTicks) + 1 else 0)
                && PolledExactly(config, old(db), db, ids, items, outcomes)
                && forwarded == old(forwarded) + Forwards(config, items)
                && ForwardedExactly(config, old(db), ids, Forwards(config, items))
    {
      ghost var start := db;
      var due, failed := PeekDueRetries(now, config.batch, ids, fault);
      if failed { return; }
      idleTicks := if |due| > 0 then 0 else idleTicks + 1;
      if |due| > 0 { FoundExactly(start.entries, ids, due[0]); }
      PollsExactly(config, start, ids, outcomes);
      ForwardsThose(config, start, ids);
      RepublishEach(due, outcomes);
    }
  }

  // ---- no starvation

  /** Redis works, and a refused job is put back at least a millisecond into the future. */
  predicate HealthyOutcome(o: Outcome, now: int)
  {
    o.ack == AckDone && o.stored && o.at > now
  }

  datatype Arrival = Arrival(id: string, payload: string, at: int)

  /** One tick of the poller, and what clients enqueue before the next. */
  datatype Round = Round(now: int, ids: seq<string>, outcomes: seq<Outcome>, arrivals: seq<Arrival>)

  function Arrive(db: Db, arrivals: seq<Arrival>): Db
  {
    if arrivals == [] then db
    else
      var n := |arrivals| - 1;
      var a := arrivals[n];
      Schedule(Arrive(db, arrivals[..n]), a.id, a.payload, a.at)
  }

  function Polled(c: Config, db: Db, r: Round): Db
    requires |Found(db.entries, r.ids)| <= |r.outcomes|
  {
    RepublishAll(c, db, Found(db.entries, r.ids), r.outcomes)
  }

  predicate After(x: string, at: int, id: string, score: int)
  {
    at < score || (at == score && Less(x, id))
  }

  /** Job x has been due at time at since before the round, and arrivals queue up behind it. */
  ghost predicate FairRound(c: Config, db: Db, r: Round, x: string, at: int)
  {
    && at <= r.now && IsRange(db.zset, r.now, c.batch, r.ids) && |r.outcomes| >= |r.ids|
    && (forall i :: 0 <= i < |r.outcomes| ==> HealthyOutcome(r.outcomes[i], r.now))
    && (forall i :: 0 <= i < |r.arrivals| ==> r.arrivals[i].id != x && After(x, at, r.arrivals[i].id, r.arrivals[i].at))
  }

  predicate Complete(db: Db)
  {
    forall id :: id in db.zset ==> id in db.entries
  }

  predicate Waiting(db: Db, x: string, at: int)
  {
    x in db.zset && db.zset[x] == at
  }

  lemma {:induction false} RepublishedElsewhere(c: Config, db: Db, items: seq<Due>, outcomes: seq<Outcome>, now: int, id: string)
    requires |items| <= |outcomes|
    requires forall i :: 0 <= i < |outcomes| ==> HealthyOutcome(outcomes[i], now)
    ensures var t := RepublishAll(c, db, items, outcomes);
            && ((forall i :: 0 <= i < |items| ==> items[i].id != id) ==>
                  (id in t.zset <==> id in db.zset) && (id in db.zset ==> t.zset[id] == db.zset[id])
                  && (id in t.entries <==> id in db.entries))
            && ((exists i :: 0 <= i < |items| && items[i].id == id) ==>
                  id in t.zset ==> t.zset[id] > now && id in t.entries)
  {
    if items != [] {
      var n := |items| - 1;
      RepublishedElsewhere(c, db, items[..n], outcomes, now, id);
      if items[n].id != id {
        RepublishElsewhere(c, RepublishAll(c, db, items[..n], outcomes), items[n], outcomes[n], id);
        if i :| 0 <= i < |items| && items[i].id == id { assert items[..n][i].id == id; }
      }
    }
  }

  lemma {:induction false} ArrivedElsewhere(db: Db, arrivals: seq<Arrival>, id: string)
    ensures var t := Arrive(db, arrivals);
            && (id in t.zset && (id !in db.zset || t.zset[id] != db.zset[id]) ==>
                  exists i :: 0 <= i < |arrivals| && arrivals[i].id == id && arrivals[i].at == t.zset[id])
            && (id in db.zset ==> id in t.zset)
            && (id in db.entries ==> id in t.entries)
            && (id in t.zset && id !in db.zset ==> id in t.entries)
  {
    if arrivals != [] {
      ArrivedElsewhere(db, arrivals[..|arrivals| - 1], id);
    }
  }

  function AfterRound(c: Config, db: Db, r: Round): Db
    requires |Found(db.entries, r.ids)| <= |r.outcomes|
  {
    Arrive(Polled(c, db, r), r.arrivals)
  }

  /** One round seen from any id: a job handed out is gone or in the future, any other job is
      where it was or freshly enqueued. */
  lemma RoundElsewhere(c: Config, db: Db, r: Round, x: string, at: int, id: string)
    requires FairRound(c, db, r, x, at) && Complete(db)
    ensures |Found(db.entries, r.ids)| <= |r.outcomes|
    ensures var t := AfterRound(c, db, r);
            && (id in t.zset ==> id in t.entries)
            && (id in t.zset ==> || (id in r.ids && t.zset[id] > r.now)
                                 || (id !in r.ids && id in db.zset && t.zset[id] == db.zset[id])
                                 || (id != x && After(x, at, id, t.zset[id])))
            && (id in db.zset && id !in r.ids ==> id in t.zset)
  {
    var items := Found(db.entries, r.ids);
    FoundExactly(db.entries, r.ids, Due(id, if id in db.entries then db.entries[id] else ""));
    if i :| 0 <= i < |items| && items[i].id == id { FoundExactly(db.entries, r.ids, items[i]); }
    RepublishedElsewhere(c, db, items, r.outcomes, r.now, id);
    ArrivedElsewhere(Polled(c, db, r), r.arrivals, id);
  }

  /** Until its turn comes, a due job moves up by a whole batch each round. */
  lemma RoundAdvances(c: Config, db: Db, r: Round, x: string, at: int)
    requires FairRound(c, db, r, x, at) && Complete(db) && Waiting(db, x, at) && x !in r.ids
    ensures |Found(db.entries, r.ids)| <= |r.outcomes|
    ensures var t := AfterRound(c, db, r);
            && Complete(t) && Waiting(t, x, at)
            && |Predecessors(t.zset, x)| + c.batch <= |Predecessors(db.zset, x)|
  {
    RoundElsewhere(c, db, r, x, at, x);
    var t := AfterRound(c, db, r);
    forall id | id in t.zset ensures id in t.entries { RoundElsewhere(c, db, r, x, at, id); }
    LessTrichotomy(x, x);
    assert Waiting(t, x, at);
    var handed := set id | id in r.ids;
    DistinctSize(db.zset, r.ids);
    var before := Predecessors(db.zset, x);
    assert handed <= before && |handed| == c.batch;
    forall y | y in Predecessors(t.zset, x) ensures y in before - handed {
      RoundElsewhere(c, db, r, x, at, y);
      BeforeTotal(t.zset, y, x);
    }
    SubsetSize(Predecessors(t.zset, x), before - handed);
    assert |before - handed| == |before| - |handed|;
  }

  lemma {:induction false} DistinctSize(z: ZSet, ids: seq<string>)
    requires forall i :: 0 <= i < |ids| ==> ids[i] in z
    requires forall i, j :: 0 <= i < j < |ids| ==> Before(z, ids[i], ids[j])
    ensures |set id | id in ids| == |ids|
  {
    if ids != [] {
      var n := |ids| - 1;
      DistinctSize(z, ids[..n]);
      assert ids == ids[..n] + [ids[n]];
      assert (set id | id in ids) == (set id | id in ids[..n]) + {ids[n]};
      BeforeTotal(z, ids[n], ids[n]);
    }
  }

  /** A run of fair rounds in which x is never among the jobs handed out. */
  ghost predicate PassedOver(c: Config, db: Db, rounds: seq<Round>, x: string, at: int)
    decreases |rounds|
  {
    rounds == [] ||
    (var r := rounds[0];
     && FairRound(c, db, r, x, at) && x !in r.ids
     && |Found(db.entries, r.ids)| <= |r.outcomes|
     && PassedOver(c, AfterRound(c, db, r), rounds[1..], x, at))
  }

  /** The jobs that rounds polls of a full batch each can hand out. */
  function Handed(rounds: nat, batch: nat): nat
  {
    if rounds == 0 then 0 else Handed(rounds - 1, batch) + batch
  }

  lemma {:induction false} HandedIsProduct(rounds: nat, batch: nat)
    ensures Handed(rounds, batch) == rounds * batch
  {
    if rounds > 0 { HandedIsProduct(rounds - 1, batch); }
  }

  lemma {:induction false} AheadShrinks(c: Config, db: Db, rounds: seq<Round>, x: string, at: int)
    requires Complete(db) && Waiting(db, x, at)
    requires PassedOver(c, db, rounds, x, at)
    ensures Handed(|rounds|, c.batch) <= |Predecessors(db.zset, x)|
    decreases |rounds|
  {
    if rounds != [] {
      var r := rounds[0];
      RoundAdvances(c, db, r, x, at);
      var t := AfterRound(c, db, r);
      assert PassedOver(c, t, rounds[1..], x, at);
      AheadShrinks(c, t, rounds[1..], x, at);
      assert |rounds[1..]| == |rounds| - 1;
      assert Handed(|rounds|, c.batch) == Handed(|rounds| - 1, c.batch) + c.batch;
    }
  }

  /** No starvation: a due job with k - 1 jobs ahead of it is not passed over in ceil(k / batch)
      polls, however Kafka answers: within that many it is handed out. */
  lemma NoStarvation(c: Config, db: Db, rounds: seq<Round>, x: string, at: int)
    requires Complete(db) && Waiting(db, x, at)
    requires PassedOver(c, db, rounds, x, at)
    ensures |rounds| * c.batch < |Predecessors(db.zset, x)| + 1
  {
    AheadShrinks(c, db, rounds, x, at);
    HandedIsProduct(|rounds|, c.batch);
  }

  /** Being handed out is, for a readable job, Forward being called with its stored payload. */
  lemma HandedOutIsForwarded(c: Config, db: Db, r: Round, x: string)
    requires Complete(db) && x in r.ids && x in db.zset
    ensures Due(x, db.entries[x]) in Forwards(c, Found(db.entries, r.ids)) <==> c.readable(db.entries[x])
  {
    FoundExactly(db.entries, r.ids, Due(x, db.entries[x]));
    ForwardsExactly(c, Found(db.entries, r.ids), Due(x, db.entries[x]));
  }
}
