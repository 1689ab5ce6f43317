/** The delayed retry queue (pkg/redis/retry_queue.go, internal/bus/retry.go) as Redis sees it:
    any number of clients and pollers, one command per event, with crashes, Kafka failures and
    failing acks anywhere. The 24 h entry expiry is outside the model. */
module RetryQueue {
  import opened Strings
  import opened ZSet

  datatype Due = Due(id: string, payload: string)

  datatype Db = Db(zset: ZSet, entries: map<string, string>)

  /** ZRANGEBYSCORE -inf max LIMIT 0 limit: the first members in queue order. */
  ghost predicate IsRange(z: ZSet, max: int, limit: nat, ids: seq<string>)
  {
    && |ids| <= limit
    && (forall i :: 0 <= i < |ids| ==> ids[i] in z && z[ids[i]] <= max)
    && (forall i, j :: 0 <= i < j < |ids| ==> Before(z, ids[i], ids[j]))
    && (forall b :: b in z && z[b] <= max && b !in ids ==>
          |ids| == limit && forall i :: 0 <= i < |ids| ==> Before(z, ids[i], b))
  }

  function Schedule(db: Db, id: string, payload: string, at: int): Db
  {
    Db(db.zset[id := at], db.entries[id := payload])
  }

  function Acknowledge(db: Db, id: string): Db
  {
    Db(db.zset - {id}, db.entries - {id})
  }

  /** What a poller read: the payload, and as history which enqueue had sent it. */
  datatype Item = Item(id: string, payload: string, gen: nat)

  /** Where a poller is inside pollOnce. */
  datatype Poller =
    | Fetching(todo: seq<string>, out: seq<Item>, stale: seq<string>)  // GETs of PeekDueRetries
    | Working(out: seq<Item>)                                         // republish of out[0] next
    | Rescheduling(item: Item, out: seq<Item>)                        // Kafka refused it, ZADD next
    | Restoring(item: Item, out: seq<Item>)                           // its SET next
    | AckRemove(id: string, out: seq<Item>)                           // ZREM of the ack next
    | AckDelete(id: string, out: seq<Item>)                           // DEL of the ack next

  /** adding holds the enqueues that have sent ZADD and not SET yet. The rest is history. An enqueue
      is named by the order in which the enqueues completed. */
  datatype State = State(
    db: Db, pollers: map<nat, Poller>, adding: map<nat, string>,
    made: seq<Due>,               // what each completed enqueue sent
    latest: map<string, nat>,     // the last enqueue of each job
    tags: map<string, nat>,       // which enqueue the stored payload is from
    fate: map<nat, bool>)         // enqueues handed to Kafka (true) or given up as unreadable

  datatype Event =
    | Enqueue(id: string, payload: string, at: int)        // both commands back to back
    | EnqueueAdd(call: nat, id: string, at: int)           // its ZADD alone
    | EnqueueSet(call: nat, payload: string)               // its SET alone, which completes it
    | Poll(p: nat, now: int, ids: seq<string>)
    | GetEntry(p: nat)
    | RemoveStale(p: nat)
    | Forward(p: nat, accepted: bool)
    | RescheduleAdd(p: nat, at: int, fails: bool)
    | RescheduleSet(p: nat, fails: bool)
    | SendRemove(p: nat, fails: bool)
    | SendDelete(p: nat, fails: bool)
    | Crash(p: nat)                                        // or any error that ends the poll

  /** readable: the payload decodes to a job for which a message can be built. */
  datatype Config = Config(batch: nat, readable: string -> bool)

  const Start := State(Db(map[], map[]), map[], map[], [], map[], map[], map[])

  /** The enqueue has sent its last command. */
  function Complete(s: State, id: string, payload: string): State
  {
    var g := |s.made|;
    s.(made := s.made + [Due(id, payload)], latest := s.latest[id := g], tags := s.tags[id := g])
  }

  function Stored(s: State, id: string): Item
    requires id in s.db.entries
  {
    Item(id, s.db.entries[id], if id in s.tags then s.tags[id] else 0)
  }

  /** The poller an event is a step of. */
  function Mover(e: Event): Option<nat>
  {
    if e.Enqueue? || e.EnqueueAdd? || e.EnqueueSet? then None else Some(e.p)
  }

  /** The poller is where the event finds it. */
  ghost predicate Ready(c: Config, s: State, e: Event)
  {
    Mover(e).Some? &&
    if e.Poll? then e.p !in s.pollers && IsRange(s.db.zset, e.now, c.batch, e.ids)
    else
      e.p in s.pollers &&
      match e
      case GetEntry(p) => s.pollers[p].Fetching? && s.pollers[p].todo != []
      case RemoveStale(p) => s.pollers[p].Fetching? && s.pollers[p].todo == []
      case Forward(p, _) => s.pollers[p].Working? && s.pollers[p].out != []
      case RescheduleAdd(p, _, _) => s.pollers[p].Rescheduling?
      case RescheduleSet(p, _) => s.pollers[p].Restoring?
      case SendRemove(p, _) => s.pollers[p].AckRemove?
      case SendDelete(p, _) => s.pollers[p].AckDelete?
      case _ => false
  }

  ghost function NextPoller(c: Config, s: State, e: Event): Poller
    requires Ready(c, s, e)
  {
    if e.Poll? then Fetching(e.ids, [], [])
    else
      var poller := s.pollers[e.p];
      var out := poller.out;
      match e
      case GetEntry(p) =>
        var id, rest := poller.todo[0], poller.todo[1..];
        if id in s.db.entries then Fetching(rest, out + [Stored(s, id)], poller.stale)
        else Fetching(rest, out, poller.stale + [id])
      case Forward(p, accepted) =>
        if !c.readable(out[0].payload) || accepted then AckRemove(out[0].id, out[1..])
        else Rescheduling(out[0], out[1..])
      case RescheduleAdd(_, _, fails) => if fails then Working(out) else Restoring(poller.item, out)
      case SendRemove(_, fails) => if fails then Working(out) else AckDelete(poller.id, out)
      case _ => Working(out)
  }

  /** The part of the state a poller's command can change. */
  datatype Effect = Effect(db: Db, tags: map<string, nat>, fate: map<nat, bool>)

  ghost function EffectOf(c: Config, s: State, e: Event): Effect
    requires Ready(c, s, e)
  {
    var none := Effect(s.db, s.tags, s.fate);
    match e
    case RemoveStale(p) =>
      var stale := s.pollers[p].stale;
      none.(db := s.db.(zset := s.db.zset - (set id | id in stale)))
    case Forward(p, accepted) =>
      var item := s.pollers[p].out[0];
      if !c.readable(item.payload) || accepted then none.(fate := s.fate[item.gen := c.readable(item.payload)]) else none
    case RescheduleAdd(p, at, fails) =>
      if fails then none else none.(db := s.db.(zset := s.db.zset[s.pollers[p].item.id := at]))
    case RescheduleSet(p, fails) =>
      var item := s.pollers[p].item;
      if fails then none
      else Effect(s.db.(entries := s.db.entries[item.id := item.payload]), s.tags[item.id := item.gen], s.fate)
    case SendRemove(p, fails) => if fails then none else none.(db := s.db.(zset := s.db.zset - {s.pollers[p].id}))
    case SendDelete(p, fails) => if fails then none else none.(db := s.db.(entries := s.db.entries - {s.pollers[p].id}))
    case _ => none
  }

  ghost function Step(c: Config, s: State, e: Event): State
  {
    if Ready(c, s, e) then
      var f := EffectOf(c, s, e);
      s.(db := f.db, tags := f.tags, fate := f.fate, pollers := s.pollers[e.p := NextPoller(c, s, e)])
    else match e
      case Enqueue(id, payload, at) =>
        if id != "" && payload != "" then Complete(s.(db := Schedule(s.db, id, payload, at)), id, payload) else s
      case EnqueueAdd(call, id, at) =>
        if id != "" && call !in s.adding then
          s.(db := s.db.(zset := s.db.zset[id := at]), adding := s.adding[call := id])
        else s
      case EnqueueSet(call, payload) =>
        if call in s.adding && payload != "" then
          var id := s.adding[call];
          Complete(s.(db := s.db.(entries := s.db.entries[id := payload]), adding := s.adding - {call}), id, payload)
        else s
      case Crash(p) => s.(pollers := s.pollers - {p})
      case _ => s
  }

  ghost function From(c: Config, s: State, run: seq<Event>): State
  {
    if run == [] then s else Step(c, From(c, s, run[..|run| - 1]), run[|run| - 1])
  }

  ghost function Exec(c: Config, run: seq<Event>): State
  {
    From(c, Start, run)
  }

  lemma FromOneMore(c: Config, s: State, run: seq<Event>, e: Event)
    ensures From(c, s, run + [e]) == Step(c, From(c, s, run), e)
  {
    assert (run + [e])[..|run|] == run;
  }

  lemma {:induction false} FromAppends(c: Config, s: State, a: seq<Event>, b: seq<Event>)
    ensures From(c, s, a + b) == From(c, From(c, s, a), b)
  {
    if b == [] {
      assert a + b == a;
    } else {
      FromAppends(c, s, a, b[..|b| - 1]);
      assert (a + b)[..|a + b| - 1] == a + b[..|b| - 1];
    }
  }

  // ---- what every run keeps

  predicate Genuine(s: State, item: Item)
  {
    item.gen < |s.made| && s.made[item.gen] == Due(item.id, item.payload)
  }

  predicate AllGenuine(s: State, items: seq<Item>)
  {
    forall i :: 0 <= i < |items| ==> Genuine(s, items[i])
  }

  predicate PollerGenuine(s: State, poller: Poller)
  {
    && AllGenuine(s, poller.out)
    && (poller.Rescheduling? || poller.Restoring? ==> Genuine(s, poller.item))
  }

  ghost predicate StoreGenuine(s: State)
  {
    && (forall id :: id in s.db.entries ==> id in s.tags && Genuine(s, Stored(s, id)))
    && (forall id :: id in s.latest ==> s.latest[id] < |s.made| && s.made[s.latest[id]].id == id)
  }

  ghost predicate FateGenuine(c: Config, s: State)
  {
    forall g :: g in s.fate ==> g < |s.made| && s.fate[g] == c.readable(s.made[g].payload)
  }

  /** Everything stored, in a poller's hands or already settled is what its enqueue sent; only
      readable payloads reach Kafka and only unreadable ones are given up. */
  ghost predicate Sound(c: Config, s: State)
  {
    && StoreGenuine(s)
    && (forall p :: p in s.pollers ==> PollerGenuine(s, s.pollers[p]))
    && FateGenuine(c, s)
  }

  lemma OthersStay(c: Config, s: State, e: Event, p: nat)
    requires (Ready(c, s, e) ==> e.p != p) && p in Step(c, s, e).pollers
    ensures p in s.pollers && Step(c, s, e).pollers[p] == s.pollers[p]
  {
  }

  lemma MadeGrows(c: Config, s: State, e: Event)
    ensures s.made <= Step(c, s, e).made
    ensures Mover(e).Some? ==> Step(c, s, e).made == s.made && Step(c, s, e).latest == s.latest
  {
  }

  lemma GenuineStays(s: State, t: State, poller: Poller)
    requires PollerGenuine(s, poller) && s.made <= t.made
    ensures PollerGenuine(t, poller)
  {
  }

  lemma MoverGenuine(c: Config, s: State, e: Event)
    requires Sound(c, s) && Ready(c, s, e)
    ensures PollerGenuine(s, NextPoller(c, s, e))
  {
    if !e.Poll? { assert PollerGenuine(s, s.pollers[e.p]); }
    if e.GetEntry? && s.pollers[e.p].todo[0] in s.db.entries { assert Genuine(s, Stored(s, s.pollers[e.p].todo[0])); }
  }

  lemma PollersSound(c: Config, s: State, e: Event, p: nat)
    requires Sound(c, s) && p in Step(c, s, e).pollers
    ensures PollerGenuine(Step(c, s, e), Step(c, s, e).pollers[p])
  {
    var t := Step(c, s, e);
    MadeGrows(c, s, e);
    if Ready(c, s, e) && e.p == p {
      MoverGenuine(c, s, e);
      GenuineStays(s, t, NextPoller(c, s, e));
    } else {
      OthersStay(c, s, e, p);
      GenuineStays(s, t, s.pollers[p]);
    }
  }

  /** A completed enqueue is stored as it was sent. */
  lemma CompletionSound(s: State, db: Db, adding: map<nat, string>, id: string, payload: string)
    requires StoreGenuine(s) && db.entries == s.db.entries[id := payload]
    ensures StoreGenuine(Complete(s.(db := db, adding := adding), id, payload))
  {
    var t := Complete(s.(db := db, adding := adding), id, payload);
    forall i | i in t.db.entries ensures i in t.tags && Genuine(t, Stored(t, i)) {
      if i != id { assert Genuine(s, Stored(s, i)); }
    }
  }

  lemma MoverStores(c: Config, s: State, e: Event)
    requires Sound(c, s) && Ready(c, s, e)
    ensures StoreGenuine(Step(c, s, e))
  {
    var t := Step(c, s, e);
    if e.RescheduleSet? { assert PollerGenuine(s, s.pollers[e.p]); }
    forall i | i in t.db.entries ensures i in t.tags && Genuine(t, Stored(t, i)) {
      if i in s.db.entries { assert Genuine(s, Stored(s, i)); }
    }
  }

  lemma StoreSound(c: Config, s: State, e: Event)
    requires Sound(c, s)
    ensures StoreGenuine(Step(c, s, e))
  {
    match e
    case Enqueue(id, payload, at) => CompletionSound(s, Schedule(s.db, id, payload, at), s.adding, id, payload);
    case EnqueueSet(call, payload) =>
      if call in s.adding {
        var id := s.adding[call];
        CompletionSound(s, s.db.(entries := s.db.entries[id := payload]), s.adding - {call}, id, payload);
      }
    case EnqueueAdd(call, id, at) => if Step(c, s, e) != s { AddStores(s, call, id, at); }
    case _ => if Ready(c, s, e) { MoverStores(c, s, e); }
  }

  lemma AddStores(s: State, call: nat, id: string, at: int)
    requires StoreGenuine(s)
    ensures StoreGenuine(s.(db := s.db.(zset := s.db.zset[id := at]), adding := s.adding[call := id]))
  {
    var t := s.(db := s.db.(zset := s.db.zset[id := at]), adding := s.adding[call := id]);
    forall i | i in t.db.entries ensures i in t.tags && Genuine(t, Stored(t, i)) { assert Genuine(s, Stored(s, i)); }
  }

  lemma FateSound(c: Config, s: State, e: Event)
    requires Sound(c, s)
    ensures FateGenuine(c, Step(c, s, e))
  {
    MadeGrows(c, s, e);
    if Ready(c, s, e) && e.Forward? {
      assert PollerGenuine(s, s.pollers[e.p]);
      assert Genuine(s, s.pollers[e.p].out[0]);
    }
  }

  lemma {:induction false} AlwaysGenuine(c: Config, run: seq<Event>)
    ensures Sound(c, Exec(c, run))
  {
    if run != [] {
      AlwaysGenuine(c, run[..|run| - 1]);
      var s, e := Exec(c, run[..|run| - 1]), run[|run| - 1];
      StoreSound(c, s, e);
      FateSound(c, s, e);
      forall p | p in Step(c, s, e).pollers ensures PollerGenuine(Step(c, s, e), Step(c, s, e).pollers[p]) {
        PollersSound(c, s, e, p);
      }
    }
  }

  // ---- the last enqueue of a job

  /** It is in the queue. */
  predicate Queued(s: State, id: string)
  {
    id in s.latest && id in s.db.zset && id in s.db.entries && id in s.tags && s.tags[id] == s.latest[id]
  }

  predicate Settled(s: State, id: string)
  {
    id in s.latest && s.latest[id] in s.fate
  }

  predicate Kept(s: State, id: string)
  {
    id in s.latest ==> Settled(s, id) || Queued(s, id)
  }

  /** The event completes an enqueue of the job. */
  predicate Completes(s: State, e: Event, id: string)
  {
    || (e.Enqueue? && e.id == id && id != "" && e.payload != "")
    || (e.EnqueueSet? && e.call in s.adding && s.adding[e.call] == id && e.payload != "")
  }

  /** The commands that take the last enqueue out of the queue before anybody has handled it. */
  predicate Takes(s: State, e: Event, id: string)
  {
    match e
    case RemoveStale(p) =>
      p in s.pollers && s.pollers[p].Fetching? && s.pollers[p].todo == [] && id in s.pollers[p].stale
    case SendRemove(p, fails) => p in s.pollers && s.pollers[p].AckRemove? && s.pollers[p].id == id && !fails
    case SendDelete(p, fails) => p in s.pollers && s.pollers[p].AckDelete? && s.pollers[p].id == id && !fails
    case RescheduleSet(p, fails) =>
      p in s.pollers && s.pollers[p].Restoring? && !fails && s.pollers[p].item.id == id
      && id in s.latest && s.pollers[p].item.gen != s.latest[id]
    case _ => false
  }

  predicate Loses(s: State, e: Event, id: string)
  {
    if Completes(s, e, id) then e.EnqueueSet? && id !in s.db.zset
    else id in s.latest && !Settled(s, id) && Takes(s, e, id)
  }

  /** Exactly which steps lose a job's last enqueue: a stale-id removal, either command of an ack or
      the SET of a reschedule that belongs to an earlier enqueue, and the SET of an enqueue whose
      member is gone again. */
  lemma LosesExactly(c: Config, run: seq<Event>, e: Event, id: string)
    requires Kept(Exec(c, run), id)
    ensures Kept(Step(c, Exec(c, run), e), id) <==> !Loses(Exec(c, run), e, id)
  {
    AlwaysGenuine(c, run);
    LosesStep(c, Exec(c, run), e, id);
  }

  lemma LosesStep(c: Config, s: State, e: Event, id: string)
    requires Kept(s, id) && Sound(c, s)
    ensures Kept(Step(c, s, e), id) <==> !Loses(s, e, id)
  {
    if Completes(s, e, id) {
      assert FateGenuine(c, s);
      assert Step(c, s, e).latest[id] == |s.made| && |s.made| !in Step(c, s, e).fate;
    } else if id in s.latest {
      LatestStays(c, s, e, id);
      if Settled(s, id) { assert Settled(Step(c, s, e), id); } else { QueueTaken(c, s, e, id); }
    } else {
      LatestStays(c, s, e, id);
    }
  }

  lemma LatestStays(c: Config, s: State, e: Event, id: string)
    requires !Completes(s, e, id)
    ensures var t := Step(c, s, e);
            && (id in t.latest <==> id in s.latest) && (id in s.latest ==> t.latest[id] == s.latest[id])
            && (forall g :: g in s.fate ==> g in t.fate)
  {
  }

  lemma QueueTaken(c: Config, s: State, e: Event, id: string)
    requires Queued(s, id) && !Settled(s, id) && !Completes(s, e, id)
    ensures Queued(Step(c, s, e), id) <==> !Takes(s, e, id)
    ensures Settled(Step(c, s, e), id) ==> Queued(Step(c, s, e), id)
  {
  }

  ghost predicate KeptThroughout(c: Config, run: seq<Event>, id: string)
  {
    forall i :: 0 <= i <= |run| ==> Kept(Exec(c, run[..i]), id)
  }

  ghost predicate NeverLoses(c: Config, run: seq<Event>, id: string)
  {
    forall i :: 0 <= i < |run| ==> !Loses(Exec(c, run[..i]), run[i], id)
  }

  /** So a run keeps every enqueue of the job until the next one or until it is handled, exactly
      when it contains no such step. */
  lemma {:induction false} KeptExactly(c: Config, run: seq<Event>, id: string)
    ensures KeptThroughout(c, run, id) <==> NeverLoses(c, run, id)
  {
    if KeptThroughout(c, run, id) {
      forall i | 0 <= i < |run| ensures !Loses(Exec(c, run[..i]), run[i], id) {
        assert run[..i + 1] == run[..i] + [run[i]];
        FromOneMore(c, Start, run[..i], run[i]);
        assert Kept(Exec(c, run[..i]), id) && Kept(Exec(c, run[..i + 1]), id);
        LosesExactly(c, run[..i], run[i], id);
      }
    }
    if NeverLoses(c, run, id) {
      forall i | 0 <= i <= |run| ensures Kept(Exec(c, run[..i]), id) { KeptSoFar(c, run, id, i); }
    }
  }

  lemma {:induction false} KeptSoFar(c: Config, run: seq<Event>, id: string, i: nat)
    requires NeverLoses(c, run, id) && i <= |run|
    ensures Kept(Exec(c, run[..i]), id)
  {
    if i > 0 {
      KeptSoFar(c, run, id, i - 1);
      assert run[..i] == run[..i - 1] + [run[i - 1]];
      FromOneMore(c, Start, run[..i - 1], run[i - 1]);
      LosesExactly(c, run[..i - 1], run[i - 1], id);
    }
  }

  // ---- at least once, per enqueue

  predicate Mentions(items: seq<Item>, id: string)
  {
    exists i :: 0 <= i < |items| && items[i].id == id
  }

  /** Between its GET of the job and the last command that GET leads to. */
  predicate BusyWith(poller: Poller, id: string)
  {
    || Mentions(poller.out, id)
    || (poller.Fetching? && id in poller.stale)
    || ((poller.Rescheduling? || poller.Restoring?) && poller.item.id == id)
    || ((poller.AckRemove? || poller.AckDelete?) && poller.id == id)
  }

  predicate Busy(s: State, id: string)
  {
    exists p :: p in s.pollers && BusyWith(s.pollers[p], id)
  }

  predicate AllFrom(items: seq<Item>, id: string, g: nat)
  {
    forall i :: 0 <= i < |items| && items[i].id == id ==> items[i].gen == g
  }

  /** A poller that can only help enqueue g: whatever it holds of the job is from g. */
  predicate Harmless(poller: Poller, id: string, g: nat)
  {
    && AllFrom(poller.out, id, g)
    && (poller.Fetching? ==> id !in poller.stale)
    && ((poller.Rescheduling? || poller.Restoring?) && poller.item.id == id ==> poller.item.gen == g)
    && ((poller.AckRemove? || poller.AckDelete?) ==> poller.id != id)
  }

  ghost predicate Safe(s: State, id: string)
  {
    id in s.latest ==>
      || Settled(s, id)
      || (Queued(s, id) && forall p :: p in s.pollers ==> Harmless(s.pollers[p], id, s.latest[id]))
  }

  lemma NotBusyHarmless(s: State, id: string, g: nat)
    requires !Busy(s, id)
    ensures forall p :: p in s.pollers ==> Harmless(s.pollers[p], id, g)
  {
    forall p | p in s.pollers ensures Harmless(s.pollers[p], id, g) {
      assert !BusyWith(s.pollers[p], id);
      assert !Mentions(s.pollers[p].out, id);
    }
  }

  /** A poller of a queued enqueue stays harmless or settles it. */
  lemma HarmlessStep(c: Config, s: State, e: Event, id: string, p: nat)
    requires Queued(s, id) && (forall q :: q in s.pollers ==> Harmless(s.pollers[q], id, s.latest[id]))
    requires !Completes(s, e, id) && p in Step(c, s, e).pollers
    ensures Settled(Step(c, s, e), id) || Harmless(Step(c, s, e).pollers[p], id, s.latest[id])
  {
    LatestStays(c, s, e, id);
    if Ready(c, s, e) && e.p == p { MoverHarmless(c, s, e, id); } else { OthersStay(c, s, e, p); }
  }

  lemma MoverHarmless(c: Config, s: State, e: Event, id: string)
    requires Queued(s, id) && (forall q :: q in s.pollers ==> Harmless(s.pollers[q], id, s.latest[id]))
    requires Ready(c, s, e)
    ensures s.latest[id] in EffectOf(c, s, e).fate || Harmless(NextPoller(c, s, e), id, s.latest[id])
  {
    if !e.Poll? { assert Harmless(s.pollers[e.p], id, s.latest[id]); }
  }

  lemma QueuedStep(c: Config, s: State, e: Event, id: string)
    requires Queued(s, id) && (forall q :: q in s.pollers ==> Harmless(s.pollers[q], id, s.latest[id]))
    requires !Completes(s, e, id) && !Settled(s, id)
    ensures Step(c, s, e).latest[id] == s.latest[id]
    ensures Queued(Step(c, s, e), id)
  {
    LatestStays(c, s, e, id);
    if Ready(c, s, e) && !e.Poll? { assert Harmless(s.pollers[e.p], id, s.latest[id]); }
    QueueTaken(c, s, e, id);
  }

  /** Completed with nobody busy with the job, and the member in place. */
  predicate QuietAt(s: State, e: Event, id: string)
  {
    Completes(s, e, id) ==> !Busy(s, id) && (e.EnqueueSet? ==> id in s.db.zset)
  }

  lemma SafeStep(c: Config, s: State, e: Event, id: string)
    requires Safe(s, id) && QuietAt(s, e, id)
    ensures Safe(Step(c, s, e), id)
  {
    var t := Step(c, s, e);
    if Completes(s, e, id) {
      NotBusyHarmless(s, id, |s.made|);
    } else if id in s.latest && !Settled(s, id) {
      QueuedStep(c, s, e, id);
      if !Settled(t, id) {
        forall p | p in t.pollers ensures Harmless(t.pollers[p], id, t.latest[id]) { HarmlessStep(c, s, e, id, p); }
      }
    }
  }

  ghost predicate Quiet(c: Config, run: seq<Event>, id: string)
  {
    forall i :: 0 <= i < |run| ==> QuietAt(Exec(c, run[..i]), run[i], id)
  }

  lemma {:induction false} AlwaysSafe(c: Config, run: seq<Event>, id: string)
    requires Quiet(c, run, id)
    ensures Safe(Exec(c, run), id)
  {
    if run != [] {
      var before := run[..|run| - 1];
      forall i | 0 <= i < |before| ensures QuietAt(Exec(c, before[..i]), before[i], id) {
        assert before[..i] == run[..i];
        assert QuietAt(Exec(c, run[..i]), run[i], id);
      }
      AlwaysSafe(c, before, id);
      assert QuietAt(Exec(c, run[..|run| - 1]), run[|run| - 1], id);
      SafeStep(c, Exec(c, before), run[|run| - 1], id);
    }
  }

  /** At least once, for every enqueue: until a job is enqueued again, its last enqueue is in the
      queue with exactly the payload it sent, or that payload was handed to Kafka, or it was given
      up as unreadable; whatever crashes, refusals, failed acks, competing pollers and stale-id
      removals the run contains. The hypothesis: no poller is busy with the job when an enqueue of
      it completes, and no such enqueue has lost its member between its two commands. */
  lemma AtLeastOnce(c: Config, run: seq<Event>, id: string)
    requires Quiet(c, run, id) && id in Exec(c, run).latest
    ensures var s := Exec(c, run);
            var g := s.latest[id];
            && g < |s.made| && s.made[g].id == id
            && (|| (id in s.db.zset && id in s.db.entries && s.db.entries[id] == s.made[g].payload)
                || (g in s.fate && s.fate[g] == c.readable(s.made[g].payload)))
  {
    AlwaysSafe(c, run, id);
    AlwaysGenuine(c, run);
    var s := Exec(c, run);
    if !Settled(s, id) { assert Genuine(s, Stored(s, id)); }
  }

  // ---- the hypothesis is exactly what is needed

  ghost predicate NoneCompletes(c: Config, s: State, more: seq<Event>, id: string)
  {
    forall i :: 0 <= i < |more| ==> !Completes(From(c, s, more[..i]), more[i], id)
  }

  lemma NoneCompletesOneMore(c: Config, s: State, e: Event, more: seq<Event>, id: string)
    requires !Completes(s, e, id) && NoneCompletes(c, Step(c, s, e), more, id)
    ensures NoneCompletes(c, s, [e] + more, id)
    ensures From(c, s, [e] + more) == From(c, Step(c, s, e), more)
  {
    FromFirst(c, s, e, more);
    forall i | 0 <= i < |[e] + more| ensures !Completes(From(c, s, ([e] + more)[..i]), ([e] + more)[i], id) {
      if i > 0 {
        assert ([e] + more)[..i] == [e] + more[..i - 1];
        FromFirst(c, s, e, more[..i - 1]);
        assert !Completes(From(c, Step(c, s, e), more[..i - 1]), more[i - 1], id);
      } else {
        assert ([e] + more)[..i] == [];
      }
    }
  }

  lemma FromFirst(c: Config, s: State, e: Event, more: seq<Event>)
    ensures From(c, s, [e] + more) == From(c, Step(c, s, e), more)
  {
    FromAppends(c, s, [e], more);
    assert [e][..0] == [];
  }

  /** Somewhere ahead of the poller lies an item of the job from before enqueue g. */
  predicate Old(items: seq<Item>, id: string, g: nat, i: nat)
  {
    i < |items| && items[i].id == id && forall j :: 0 <= j <= i ==> items[j].gen != g
  }

  predicate Unsettled(s: State, id: string, g: nat)
  {
    id in s.latest && s.latest[id] == g && g !in s.fate
  }

  /** Left to itself, a poller with an old item of the job publishes it and acks the job away. */
  lemma {:induction false} WorksOff(c: Config, s: State, id: string, p: nat, g: nat, i: nat) returns (more: seq<Event>)
    requires Unsettled(s, id, g) && p in s.pollers && s.pollers[p].Working? && Old(s.pollers[p].out, id, g, i)
    ensures NoneCompletes(c, s, more, id) && !Kept(From(c, s, more), id)
    decreases i
  {
    var t := Step(c, s, Forward(p, true));
    var out := s.pollers[p].out;
    if i == 0 {
      var u := Step(c, t, SendRemove(p, false));
      more := [];
      NoneCompletesOneMore(c, t, SendRemove(p, false), [], id);
      NoneCompletesOneMore(c, s, Forward(p, true), [SendRemove(p, false)] + [], id);
      more := [Forward(p, true)] + ([SendRemove(p, false)] + []);
    } else {
      var u := Step(c, t, SendRemove(p, true));
      assert forall j :: 0 <= j < |out[1..]| ==> out[1..][j] == out[j + 1];
      var rest := WorksOff(c, u, id, p, g, i - 1);
      NoneCompletesOneMore(c, t, SendRemove(p, true), rest, id);
      NoneCompletesOneMore(c, s, Forward(p, true), [SendRemove(p, true)] + rest, id);
      more := [Forward(p, true)] + ([SendRemove(p, true)] + rest);
    }
  }

  /** The same from inside its peek, where it may also hold the job for stale. */
  lemma {:induction false} FetchesOn(c: Config, s: State, id: string, p: nat, g: nat, i: nat) returns (more: seq<Event>)
    requires Unsettled(s, id, g) && p in s.pollers && s.pollers[p].Fetching?
    requires id in s.pollers[p].stale || Old(s.pollers[p].out, id, g, i)
    ensures NoneCompletes(c, s, more, id) && !Kept(From(c, s, more), id)
    decreases |s.pollers[p].todo|
  {
    if s.pollers[p].todo == [] {
      var t := Step(c, s, RemoveStale(p));
      if id in s.pollers[p].stale {
        NoneCompletesOneMore(c, s, RemoveStale(p), [], id);
        more := [RemoveStale(p)] + [];
      } else {
        var rest := WorksOff(c, t, id, p, g, i);
        NoneCompletesOneMore(c, s, RemoveStale(p), rest, id);
        more := [RemoveStale(p)] + rest;
      }
    } else {
      var rest := FetchesOn(c, Step(c, s, GetEntry(p)), id, p, g, i);
      NoneCompletesOneMore(c, s, GetEntry(p), rest, id);
      more := [GetEntry(p)] + rest;
    }
  }

  lemma OneStep(c: Config, s: State, e: Event, id: string)
    requires !Completes(s, e, id)
    ensures NoneCompletes(c, s, [e], id) && From(c, s, [e]) == Step(c, s, e)
  {
    NoneCompletesOneMore(c, s, e, [], id);
    assert [e] + [] == [e];
  }

  lemma TakenAway(c: Config, s: State, e: Event, id: string, g: nat) returns (more: seq<Event>)
    requires Unsettled(s, id, g) && Takes(s, e, id)
    ensures NoneCompletes(c, s, more, id) && !Kept(From(c, s, more), id)
  {
    OneStep(c, s, e, id);
    more := [e];
  }

  ghost function FirstOf(items: seq<Item>, id: string): (i: nat)
    requires Mentions(items, id)
    ensures i < |items| && items[i].id == id
  {
    var i: nat :| i < |items| && items[i].id == id;
    i
  }

  /** Any poller busy with the job from before enqueue g can take g away. */
  lemma BusyTakesAway(c: Config, s: State, id: string, p: nat, g: nat) returns (more: seq<Event>)
    requires Unsettled(s, id, g) && p in s.pollers && BusyWith(s.pollers[p], id)
    requires forall i :: 0 <= i < |s.pollers[p].out| ==> s.pollers[p].out[i].gen != g
    requires s.pollers[p].Rescheduling? || s.pollers[p].Restoring? ==> s.pollers[p].item.gen != g
    ensures NoneCompletes(c, s, more, id) && !Kept(From(c, s, more), id)
  {
    match s.pollers[p] {
      case Fetching(_, out, stale) =>
        var i := if id in stale then 0 else FirstOf(out, id);
        more := FetchesOn(c, s, id, p, g, i);
      case Working(out) =>
        more := WorksOff(c, s, id, p, g, FirstOf(out, id));
      case Rescheduling(item, out) =>
        if item.id == id {
          more := ReschedulesOld(c, s, id, p, g);
        } else {
          more := ThenWorksOff(c, s, RescheduleAdd(p, 0, true), id, p, g);
        }
      case Restoring(item, out) =>
        if item.id == id {
          more := TakenAway(c, s, RescheduleSet(p, false), id, g);
        } else {
          more := ThenWorksOff(c, s, RescheduleSet(p, true), id, p, g);
        }
      case AckRemove(id', out) =>
        if id' == id {
          more := TakenAway(c, s, SendRemove(p, false), id, g);
        } else {
          more := ThenWorksOff(c, s, SendRemove(p, true), id, p, g);
        }
      case AckDelete(id', out) =>
        if id' == id {
          more := TakenAway(c, s, SendDelete(p, false), id, g);
        } else {
          more := ThenWorksOff(c, s, SendDelete(p, true), id, p, g);
        }
    }
  }

  lemma ReschedulesOld(c: Config, s: State, id: string, p: nat, g: nat) returns (more: seq<Event>)
    requires Unsettled(s, id, g) && p in s.pollers && s.pollers[p].Rescheduling?
    requires s.pollers[p].item.id == id && s.pollers[p].item.gen != g
    ensures NoneCompletes(c, s, more, id) && !Kept(From(c, s, more), id)
  {
    var t := Step(c, s, RescheduleAdd(p, 0, false));
    var last := TakenAway(c, t, RescheduleSet(p, false), id, g);
    NoneCompletesOneMore(c, s, RescheduleAdd(p, 0, false), last, id);
    more := [RescheduleAdd(p, 0, false)] + last;
  }

  /** A failed command first, then the rest of the batch. */
  lemma ThenWorksOff(c: Config, s: State, e: Event, id: string, p: nat, g: nat) returns (more: seq<Event>)
    requires Unsettled(s, id, g) && p in s.pollers && Mentions(s.pollers[p].out, id)
    requires Step(c, s, e) == s.(pollers := s.pollers[p := Working(s.pollers[p].out)]) && !Completes(s, e, id)
    requires forall i :: 0 <= i < |s.pollers[p].out| ==> s.pollers[p].out[i].gen != g
    ensures NoneCompletes(c, s, more, id) && !Kept(From(c, s, more), id)
  {
    var out := s.pollers[p].out;
    var rest := WorksOff(c, Step(c, s, e), id, p, g, FirstOf(out, id));
    NoneCompletesOneMore(c, s, e, rest, id);
    more := [e] + rest;
  }

  /** However the run goes on, until the job is enqueued again. */
  ghost predicate KeptWhateverFollows(c: Config, s: State, id: string)
  {
    forall more :: NoneCompletes(c, s, more, id) ==> Kept(From(c, s, more), id)
  }

  lemma {:induction false} SafeFrom(c: Config, s: State, more: seq<Event>, id: string)
    requires Safe(s, id) && NoneCompletes(c, s, more, id)
    ensures Safe(From(c, s, more), id)
  {
    if more != [] {
      var n := |more| - 1;
      forall i | 0 <= i < n ensures !Completes(From(c, s, more[..n][..i]), more[..n][i], id) {
        assert more[..n][..i] == more[..i];
      }
      SafeFrom(c, s, more[..n], id);
      SafeStep(c, From(c, s, more[..n]), more[n], id);
    }
  }

  /** The exact condition of at-least-once: an enqueue, completed in any reached state, survives
      whatever follows if and only if at that moment no poller is busy with the job and the job's
      member is in the sorted set. */
  lemma SurvivesExactly(c: Config, run: seq<Event>, e: Event, id: string)
    requires Completes(Exec(c, run), e, id)
    ensures KeptWhateverFollows(c, Step(c, Exec(c, run), e), id) <==> QuietAt(Exec(c, run), e, id)
  {
    var s := Exec(c, run);
    var t, g := Step(c, s, e), |s.made|;
    AlwaysGenuine(c, run);
    if QuietAt(s, e, id) {
      NotBusyHarmless(s, id, g);
      assert FateGenuine(c, s);
      forall more | NoneCompletes(c, t, more, id) ensures Kept(From(c, t, more), id) { SafeFrom(c, t, more, id); }
    } else {
      assert g !in s.fate;
      if Busy(s, id) {
        var p :| p in s.pollers && BusyWith(s.pollers[p], id);
        assert PollerGenuine(s, s.pollers[p]);
        var more := BusyTakesAway(c, t, id, p, g);
      } else {
        assert NoneCompletes(c, t, [], id) && From(c, t, []) == t && !Kept(t, id);
      }
    }
  }

  // ---- when the condition holds, and the two ways it fails

  /** Nothing anywhere mentions the job yet. */
  ghost predicate Untouched(s: State, id: string)
  {
    id !in s.latest && id !in s.db.zset && id !in s.db.entries && !Busy(s, id)
    && forall p :: p in s.pollers && s.pollers[p].Fetching? ==> id !in s.pollers[p].todo
  }

  predicate OneStepOnly(run: seq<Event>, id: string)
  {
    forall i :: 0 <= i < |run| ==> !run[i].EnqueueAdd? && (run[i].Enqueue? ==> run[i].id != id)
  }

  lemma UntouchedStep(c: Config, s: State, e: Event, id: string)
    requires Untouched(s, id) && s.adding == map[] && !e.EnqueueAdd? && (e.Enqueue? ==> e.id != id)
    ensures Untouched(Step(c, s, e), id) && Step(c, s, e).adding == map[]
  {
    var t := Step(c, s, e);
    forall p | p in t.pollers
      ensures !BusyWith(t.pollers[p], id) && (t.pollers[p].Fetching? ==> id !in t.pollers[p].todo)
    {
      if Ready(c, s, e) && e.p == p { UntouchedMover(c, s, e, id); } else { OthersStay(c, s, e, p); }
    }
    LatestStays(c, s, e, id);
    UntouchedStore(c, s, e, id);
  }

  predicate Free(items: seq<Item>, id: string)
  {
    forall i :: 0 <= i < |items| ==> items[i].id != id
  }

  lemma FreeIsNotMentioned(items: seq<Item>, id: string)
    ensures Free(items, id) <==> !Mentions(items, id)
  {
  }

  lemma UntouchedMover(c: Config, s: State, e: Event, id: string)
    requires Untouched(s, id) && Ready(c, s, e)
    ensures var poller := NextPoller(c, s, e); !BusyWith(poller, id) && (poller.Fetching? ==> id !in poller.todo)
  {
    var next := NextPoller(c, s, e);
    if !e.Poll? {
      assert !BusyWith(s.pollers[e.p], id);
      FreeIsNotMentioned(s.pollers[e.p].out, id);
    }
    assert Free(next.out, id);
    FreeIsNotMentioned(next.out, id);
  }

  lemma UntouchedStore(c: Config, s: State, e: Event, id: string)
    requires Untouched(s, id) && s.adding == map[] && !e.EnqueueAdd? && (e.Enqueue? ==> e.id != id)
    ensures var t := Step(c, s, e); id !in t.db.zset && id !in t.db.entries && t.adding == map[]
  {
    if Ready(c, s, e) && !e.Poll? { assert !BusyWith(s.pollers[e.p], id); }
  }

  /** Where enqueues run as one step, the first enqueue of a job always meets the condition. */
  lemma {:induction false} OneStepEnqueuesAreUndisturbed(c: Config, run: seq<Event>, id: string)
    requires OneStepOnly(run, id)
    ensures Untouched(Exec(c, run), id) && Exec(c, run).adding == map[]
    ensures forall payload, at :: QuietAt(Exec(c, run), Enqueue(id, payload, at), id)
  {
    if run != [] {
      OneStepEnqueuesAreUndisturbed(c, run[..|run| - 1], id);
      UntouchedStep(c, Exec(c, run[..|run| - 1]), run[|run| - 1], id);
    }
  }

  lemma ExecFive(c: Config, a: Event, b: Event, d: Event, e: Event, f: Event)
    ensures Exec(c, [a, b, d, e, f]) == Step(c, Step(c, Step(c, Step(c, Step(c, Start, a), b), d), e), f)
  {
    assert [a, b, d, e, f][..4] == [a, b, d, e];
    assert [a, b, d, e][..3] == [a, b, d];
    assert [a, b, d][..2] == [a, b];
    assert [a, b][..1] == [a];
    FromOneMore(c, Start, [], a);
    assert [] + [a] == [a];
    assert Exec(c, [a, b]) == Step(c, Exec(c, [a]), b);
    assert Exec(c, [a, b, d]) == Step(c, Exec(c, [a, b]), d);
    assert Exec(c, [a, b, d, e]) == Step(c, Exec(c, [a, b, d]), e);
  }

  /** A poll between the two commands of an enqueue takes the job for stale and removes it after
      the enqueue has succeeded, for every job. */
  lemma SplitEnqueueLosesTheJob(c: Config, id: string, payload: string)
    requires c.batch >= 1 && id != "" && payload != ""
    ensures var s := Exec(c, [EnqueueAdd(0, id, 0), Poll(0, 0, [id]), GetEntry(0), EnqueueSet(0, payload), RemoveStale(0)]);
            s.made == [Due(id, payload)] && id !in s.db.zset && s.fate == map[] && !Kept(s, id)
  {
    ExecFive(c, EnqueueAdd(0, id, 0), Poll(0, 0, [id]), GetEntry(0), EnqueueSet(0, payload), RemoveStale(0));
    PeekStale(c, id);
    StaleTakes(c, Step(c, Step(c, Step(c, Start, EnqueueAdd(0, id, 0)), Poll(0, 0, [id])), GetEntry(0)), id, payload);
  }

  lemma PeekStale(c: Config, id: string)
    requires c.batch >= 1 && id != ""
    ensures var s := Step(c, Step(c, Step(c, Start, EnqueueAdd(0, id, 0)), Poll(0, 0, [id])), GetEntry(0));
            s.pollers == map[0 := Fetching([], [], [id])] && s.adding == map[0 := id] && s.made == [] && s.fate == map[]
  {
    var s1 := Step(c, Start, EnqueueAdd(0, id, 0));
    assert IsRange(s1.db.zset, 0, c.batch, [id]);
    var s2 := Step(c, s1, Poll(0, 0, [id]));
    assert s2 == s1.(pollers := map[0 := Fetching([id], [], [])]);
    assert NextPoller(c, s2, GetEntry(0)) == Fetching([], [], [id]);
  }

  lemma StaleTakes(c: Config, s: State, id: string, payload: string)
    requires s.pollers == map[0 := Fetching([], [], [id])] && s.adding == map[0 := id] && payload != ""
    requires s.made == [] && s.fate == map[]
    ensures var t := Step(c, Step(c, s, EnqueueSet(0, payload)), RemoveStale(0));
            t.made == [Due(id, payload)] && id !in t.db.zset && t.fate == map[] && !Kept(t, id)
  {
  }

  lemma PeekOne(c: Config, id: string, one: string)
    requires c.batch >= 1 && id != "" && one != ""
    ensures var s := Step(c, Step(c, Step(c, Start, Enqueue(id, one, 0)), Poll(0, 0, [id])), GetEntry(0));
            && s.pollers == map[0 := Fetching([], [Item(id, one, 0)], [])] && s.made == [Due(id, one)]
            && s.fate == map[] && s.latest == map[id := 0]
  {
    var s1 := Step(c, Start, Enqueue(id, one, 0));
    assert IsRange(s1.db.zset, 0, c.batch, [id]);
    assert s1.db == Db(map[id := 0], map[id := one]) && s1.tags == map[id := 0] && s1.made == [Due(id, one)];
    var s2 := Step(c, s1, Poll(0, 0, [id]));
    assert s2 == s1.(pollers := map[0 := Fetching([id], [], [])]);
    assert NextPoller(c, s2, GetEntry(0)) == Fetching([], [Item(id, one, 0)], []);
  }

  lemma ForwardOne(c: Config, s: State, item: Item)
    requires s.pollers == map[0 := Fetching([], [item], [])] && s.fate == map[]
    ensures var t := Step(c, Step(c, s, RemoveStale(0)), Forward(0, true));
            && t.pollers == map[0 := AckRemove(item.id, [])] && t.made == s.made
            && t.fate == map[item.gen := c.readable(item.payload)] && t.latest == s.latest
  {
    var t := Step(c, s, RemoveStale(0));
    assert t.pollers == map[0 := Working([item])];
    assert NextPoller(c, t, Forward(0, true)) == AckRemove(item.id, []);
  }

  /** A job enqueued again while a poller forwards its earlier enqueue is acked away with it, for
      every job and any two payloads. */
  lemma ReenqueueUnderAckIsLost(c: Config, id: string, one: string, two: string)
    requires c.batch >= 1 && id != "" && one != "" && two != ""
    ensures var run := [Enqueue(id, one, 0), Poll(0, 0, [id]), GetEntry(0), RemoveStale(0), Forward(0, true)]
                       + [Enqueue(id, two, 100)] + [SendRemove(0, false)];
            var s := Exec(c, run);
            && s.made == [Due(id, one), Due(id, two)] && id !in s.db.zset
            && s.fate == map[0 := c.readable(one)] && !Kept(s, id)
  {
    var five := [Enqueue(id, one, 0), Poll(0, 0, [id]), GetEntry(0), RemoveStale(0), Forward(0, true)];
    ExecFive(c, Enqueue(id, one, 0), Poll(0, 0, [id]), GetEntry(0), RemoveStale(0), Forward(0, true));
    PeekOne(c, id, one);
    ForwardOne(c, Step(c, Step(c, Step(c, Start, Enqueue(id, one, 0)), Poll(0, 0, [id])), GetEntry(0)), Item(id, one, 0));
    FromOneMore(c, Start, five, Enqueue(id, two, 100));
    FromOneMore(c, Start, five + [Enqueue(id, two, 100)], SendRemove(0, false));
    AckTakesNew(c, Exec(c, five), id, two);
  }

  lemma AckTakesNew(c: Config, s: State, id: string, two: string)
    requires id != "" && two != "" && s.pollers == map[0 := AckRemove(id, [])]
    requires |s.made| == 1 && s.fate.Keys == {0}
    ensures var t := Step(c, Step(c, s, Enqueue(id, two, 100)), SendRemove(0, false));
            t.made == s.made + [Due(id, two)] && id !in t.db.zset && t.fate == s.fate && !Kept(t, id)
  {
  }
}
