/** Whole-run properties of the priority queue: nothing pushed is lost, doubled or mixed up, and
    headers never travel with another cycle's payload. */
module PriorityQueueSafety {
  import opened Strings
  import opened ZSet
  import opened PriorityQueue

  // ---- where an id is

  /** The pop took the id and did not put it back. */
  predicate Has(s: State, q: nat, id: string)
  {
    q in s.pops && s.pops[q].id == id && s.pops[q].phase != Restored
  }

  predicate At(s: State, id: string, place: Place)
  {
    id in s.place && s.place[id] == place
  }

  predicate Added(s: State, p: nat, id: string)
  {
    p in s.pushes && s.pushes[p].added && s.pushes[p].item.id == id
  }

  ghost predicate Distinct(s: State)
  {
    forall p, p' :: p in s.pushes && p' in s.pushes && s.pushes[p].item.id == s.pushes[p'].item.id ==> p == p'
  }

  /** The push that last added the id. */
  predicate Owned(s: State, id: string)
  {
    id in s.owner && Added(s, s.owner[id], id)
  }

  predicate OwnedAs(s: State, id: string, score: int)
  {
    Owned(s, id) && ScoreOf(s.pushes[s.owner[id]].item) == score
  }

  predicate PushInv(s: State, p: nat)
    requires p in s.pushes
  {
    var push := s.pushes[p];
    && GoodItem(push.item)
    && (push.pc == AtPayload || push.pc == AtHeaders || push.pc == AtAdd ==> !push.added)
    && (push.pc == AtTrim || push.pc == Completed ==> push.added)
    && (push.added ==> push.item.id in s.place)
  }

  /** What the history says of an id is so, and it was the id's owner that put it there. */
  predicate IdInv(s: State, id: string)
    requires id in s.place
  {
    && Owned(s, id)
    && match s.place[id]
       case InSet => id in s.db.zset
       case WithPop(q) => Has(s, q, id)
       case Trimmed => true
  }

  predicate PopInv(s: State, q: nat)
    requires q in s.pops
  {
    var pop := s.pops[q];
    && OwnedAs(s, pop.id, pop.score)
    && (pop.phase != Restored ==> At(s, pop.id, WithPop(q)))
  }

  /** The sorted set and the pops are where the history says, and nothing else is anywhere. */
  ghost predicate PlaceInv(s: State)
  {
    && (forall id :: id in s.place ==> IdInv(s, id))
    && (forall id :: id in s.db.zset ==> At(s, id, InSet) && OwnedAs(s, id, s.db.zset[id]))
    && (forall q :: q in s.pops ==> PopInv(s, q))
    && (forall p :: p in s.pushes ==> PushInv(s, p))
  }

  lemma PushesStay(c: Config, s: State, e: Event)
    ensures forall p, id :: Added(s, p, id) ==> Added(Step(c, s, e), p, id)
    ensures forall p :: p in s.pushes ==> p in Step(c, s, e).pushes && Step(c, s, e).pushes[p].item == s.pushes[p].item
    ensures Distinct(Step(c, s, e)) ==> Distinct(s)
  {
    if e.PushNext? && e.p in s.pushes { PushNextStays(c, s, e.p); }
  }

  lemma PushNextStays(c: Config, s: State, p: nat)
    requires p in s.pushes
    ensures var t := PushCommand(c, s, p);
            && t.pushes.Keys == s.pushes.Keys && (forall i :: i in s.pushes && i != p ==> t.pushes[i] == s.pushes[i])
            && t.pushes[p].item == s.pushes[p].item && (s.pushes[p].added ==> t.pushes[p].added)
            && t.pops == s.pops
  {
  }

  lemma AddPlaces(s: State, p: nat)
    requires PlaceInv(s) && p in s.pushes && s.pushes[p].pc == AtAdd
    requires forall p' :: p' in s.pushes && s.pushes[p'].item.id == s.pushes[p].item.id ==> p' == p
    ensures PlaceInv(DoAdd(s, p))
  {
    var t := DoAdd(s, p);
    var id := s.pushes[p].item.id;
    assert PushInv(s, p);
    assert id in s.place ==> IdInv(s, id);
    forall i | i in t.place ensures IdInv(t, i) { if i != id { assert IdInv(s, i); } }
    forall i | i in t.db.zset ensures At(t, i, InSet) && OwnedAs(t, i, t.db.zset[i]) {
      if i != id { assert At(s, i, InSet) && OwnedAs(s, i, s.db.zset[i]); }
    }
    forall q | q in t.pops ensures PopInv(t, q) {
      assert PopInv(s, q);
      assert s.pops[q].id != id;
    }
    forall p' | p' in t.pushes ensures PushInv(t, p') { assert PushInv(s, p'); }
  }

  lemma TrimPlaces(s: State, p: nat, kept: ZSet)
    requires PlaceInv(s) && p in s.pushes && s.pushes[p].pc == AtTrim
    requires forall id :: id in kept ==> id in s.db.zset && kept[id] == s.db.zset[id]
    ensures PlaceInv(DoTrim(s, p, kept))
  {
    var t := DoTrim(s, p, kept);
    assert PushInv(s, p);
    forall i | i in s.place
      ensures i in t.place && t.place[i] == if i in s.db.zset && i !in kept then Trimmed else s.place[i]
    {}
    forall i | Owned(s, i) ensures Owned(t, i) && t.pushes[t.owner[i]].item == s.pushes[s.owner[i]].item {}
    forall i | i in t.place ensures IdInv(t, i) {
      assert i in s.place;
      assert IdInv(s, i);
    }
    forall i | i in t.db.zset ensures At(t, i, InSet) && OwnedAs(t, i, t.db.zset[i]) {
      assert At(s, i, InSet) && OwnedAs(s, i, s.db.zset[i]);
    }
    forall q | q in t.pops ensures PopInv(t, q) { assert PopInv(s, q); }
    forall p' | p' in t.pushes ensures PushInv(t, p') { assert PushInv(s, p'); }
  }

  lemma TakePlaces(s: State, q: nat, id: string)
    requires PlaceInv(s) && q !in s.pops && id in s.db.zset
    ensures PlaceInv(DoTake(s, q, id))
  {
    var t := DoTake(s, q, id);
    forall i | i in t.place ensures IdInv(t, i) { assert IdInv(s, i); }
    forall q' | q' in t.pops ensures PopInv(t, q') { if q' != q { assert PopInv(s, q'); } }
    forall p | p in t.pushes ensures PushInv(t, p) { assert PushInv(s, p); }
  }

  lemma RestorePlaces(s: State, q: nat)
    requires PlaceInv(s) && q in s.pops && s.pops[q].phase == Restoring
    ensures PlaceInv(DoRestore(s, q))
  {
    var t := DoRestore(s, q);
    assert PopInv(s, q);
    forall i | i in t.place ensures IdInv(t, i) { assert IdInv(s, i); }
    forall q' | q' in t.pops ensures PopInv(t, q') { assert PopInv(s, q'); }
    forall p | p in t.pushes ensures PushInv(t, p) { assert PushInv(s, p); }
  }

  /** What an event that moves no id may change. */
  ghost predicate SamePlaces(s: State, t: State)
  {
    && t.db.zset == s.db.zset && t.place == s.place && t.owner == s.owner
    && t.pops.Keys == s.pops.Keys
    && (forall q :: q in s.pops ==> t.pops[q].id == s.pops[q].id && t.pops[q].score == s.pops[q].score
                                    && (t.pops[q].phase == Restored <==> s.pops[q].phase == Restored))
    && (forall p :: p in s.pushes ==>
          p in t.pushes && t.pushes[p].item == s.pushes[p].item && t.pushes[p].added == s.pushes[p].added)
  }

  lemma SamePlacesKeepsInv(s: State, t: State)
    requires PlaceInv(s) && SamePlaces(s, t)
    requires forall p :: p in t.pushes ==> PushInv(t, p)
    ensures PlaceInv(t)
  {
    forall i | i in t.place ensures IdInv(t, i) { assert IdInv(s, i); }
    forall q | q in t.pops ensures PopInv(t, q) { assert PopInv(s, q); }
  }

  lemma QuietPush(s: State, db: Db, p: nat, push: Push)
    requires PlaceInv(s) && db.zset == s.db.zset
    requires if p in s.pushes then push.item == s.pushes[p].item && push.added == s.pushes[p].added
             else !push.added
    requires PushInv(s.(pushes := s.pushes[p := push]), p)
    ensures PlaceInv(s.(db := db, pushes := s.pushes[p := push]))
  {
    var t := s.(db := db, pushes := s.pushes[p := push]);
    forall p' | p' in t.pushes ensures PushInv(t, p') { if p' != p { assert PushInv(s, p'); } }
    SamePlacesKeepsInv(s, t);
  }

  lemma QuietPop(s: State, db: Db, q: nat, phase: Phase)
    requires PlaceInv(s) && db.zset == s.db.zset && q in s.pops
    requires phase != Restored && s.pops[q].phase != Restored
    ensures PlaceInv(InPhase(s.(db := db), q, phase))
  {
    var t := InPhase(s.(db := db), q, phase);
    forall p | p in t.pushes ensures PushInv(t, p) { assert PushInv(s, p); }
    SamePlacesKeepsInv(s, t);
  }

  lemma PushPlaces(c: Config, s: State, p: nat)
    requires PlaceInv(s) && Distinct(s) && p in s.pushes
    ensures PlaceInv(PushCommand(c, s, p))
  {
    assert PushInv(s, p);
    var t := PushCommand(c, s, p);
    match s.pushes[p].pc {
      case AtPayload => QuietPush(s, t.db, p, t.pushes[p]);
      case AtHeaders => QuietPush(s, t.db, p, t.pushes[p]);
      case AtAdd => AddPlaces(s, p);
      case AtTrim => TrimPlaces(s, p, Trim(c, s.db).zset);
      case _ =>
    }
  }

  lemma PlaceStep(c: Config, s: State, e: Event)
    requires PlaceInv(s) && Distinct(s)
    ensures PlaceInv(Step(c, s, e))
  {
    var t := Step(c, s, e);
    if t != s {
      match e {
        case StartPush(p, item) => QuietPush(s, s.db, p, t.pushes[p]);
        case PushNext(p) => PushPlaces(c, s, p);
        case PushFail(p) => assert PushInv(s, p); QuietPush(s, s.db, p, t.pushes[p]);
        case TrimFail(p) => assert PushInv(s, p); QuietPush(s, s.db, p, t.pushes[p]);
        case PopMin(q, id) => TakePlaces(s, q, id);
        case GetPayload(q, _) => QuietPop(s, s.db, q, t.pops[q].phase);
        case GetHeaders(q, _) => QuietPop(s, s.db, q, t.pops[q].phase);
        case Restore(q) => RestorePlaces(s, q);
        case Delete(q, _) => QuietPop(s, t.db, q, t.pops[q].phase);
      }
    }
  }

  // ---- what is stored for an id

  predicate PayloadIn(c: Config, s: State, item: Item)
  {
    EntryKey(c, item.id) in s.db.strings && s.db.strings[EntryKey(c, item.id)] == Payload(item.payload)
  }

  predicate HeadersIn(c: Config, s: State, item: Item)
  {
    var key := HeaderKey(c, item.id);
    if item.headers == map[] then key !in s.db.strings
    else key in s.db.strings && s.db.strings[key] == Envelope(c.digest(item.payload), item.headers)
  }

  /** What a pop of this push must return. */
  function Expected(item: Item): Result
  {
    Result(item.id, Clamp(item.priority), Some(item.payload), if item.headers == map[] then None else Some(item.headers))
  }

  predicate PhaseContent(c: Config, s: State, item: Item, phase: Phase)
  {
    match phase
    case Deleting(result) => result == Expected(item)
    case Returned(result) => result == Expected(item)
    case GotPayload(payload) => PayloadIn(c, s, item) && HeadersIn(c, s, item) && payload == Some(item.payload)
    case _ => PayloadIn(c, s, item) && HeadersIn(c, s, item)
  }

  predicate PlaceContent(c: Config, s: State, item: Item, place: Place)
  {
    match place
    case InSet => PayloadIn(c, s, item) && HeadersIn(c, s, item)
    case WithPop(q) => q in s.pops && PhaseContent(c, s, item, s.pops[q].phase)
    case Trimmed => true
  }

  /** The commands a push has sent so far have left exactly its own values behind. */
  predicate ContentInv(c: Config, s: State, p: nat)
    requires p in s.pushes
  {
    var Push(item, pc, added) := s.pushes[p];
    && (pc == AtHeaders || pc == AtAdd ==> PayloadIn(c, s, item))
    && (pc == AtPayload || pc == AtHeaders ==> HeaderKey(c, item.id) !in s.db.strings)
    && (pc == AtAdd ==> HeadersIn(c, s, item))
    && (added && item.id in s.place ==> PlaceContent(c, s, item, s.place[item.id]))
  }

  ghost predicate Known(s: State, id: string)
  {
    exists p :: p in s.pushes && s.pushes[p].item.id == id
  }

  ghost predicate QueueInv(c: Config, s: State)
  {
    && PlaceInv(s)
    && (forall p :: p in s.pushes ==> ContentInv(c, s, p))
    && (forall id :: HeaderKey(c, id) in s.db.strings ==> Known(s, id))
  }

  /** The id whose keys an event may write. */
  function Subject(s: State, e: Event): Option<string>
  {
    match e
    case PushNext(p) => if p in s.pushes then Some(s.pushes[p].item.id) else None
    case Delete(q, _) => if q in s.pops then Some(s.pops[q].id) else None
    case _ => None
  }

  predicate SameStrings(c: Config, s: State, t: State, id: string)
  {
    && (EntryKey(c, id) in t.db.strings <==> EntryKey(c, id) in s.db.strings)
    && (EntryKey(c, id) in s.db.strings ==> t.db.strings[EntryKey(c, id)] == s.db.strings[EntryKey(c, id)])
    && (HeaderKey(c, id) in t.db.strings <==> HeaderKey(c, id) in s.db.strings)
    && (HeaderKey(c, id) in s.db.strings ==> t.db.strings[HeaderKey(c, id)] == s.db.strings[HeaderKey(c, id)])
  }

  /** Keys of other ids are never touched: this is where the prefix check matters. */
  lemma OtherKeysUntouched(c: Config, s: State, e: Event, id: string)
    requires Accepted(c) && Subject(s, e) != Some(id)
    ensures SameStrings(c, s, Step(c, s, e), id)
  {
    KeysApart(c);
    match e
    case PushNext(p) =>
    case Delete(q, _) =>
    case _ =>
  }

  /** The id an event is about. */
  function About(s: State, e: Event): Option<string>
  {
    match e
    case StartPush(_, item) => Some(item.id)
    case PushNext(p) => if p in s.pushes then Some(s.pushes[p].item.id) else None
    case PushFail(p) => if p in s.pushes then Some(s.pushes[p].item.id) else None
    case TrimFail(p) => if p in s.pushes then Some(s.pushes[p].item.id) else None
    case PopMin(_, id) => Some(id)
    case GetPayload(q, _) => if q in s.pops then Some(s.pops[q].id) else None
    case GetHeaders(q, _) => if q in s.pops then Some(s.pops[q].id) else None
    case Restore(q) => if q in s.pops then Some(s.pops[q].id) else None
    case Delete(q, _) => if q in s.pops then Some(s.pops[q].id) else None
  }

  /** An event about another id leaves this id's pushes and pops alone; at most it trims it. */
  lemma OtherThreadsUntouched(c: Config, s: State, e: Event, id: string)
    requires About(s, e) != Some(id)
    ensures var t := Step(c, s, e);
            && (forall p :: p in t.pushes && t.pushes[p].item.id == id ==> p in s.pushes && t.pushes[p] == s.pushes[p])
            && (forall q :: q in s.pops && s.pops[q].id == id ==> q in t.pops && t.pops[q] == s.pops[q])
  {
    if e.PushNext? && e.p in s.pushes { PushNextStays(c, s, e.p); }
  }

  lemma OtherPlaceUntouched(c: Config, s: State, e: Event, id: string)
    requires About(s, e) != Some(id) && (id in s.db.zset ==> id in s.place)
    ensures var t := Step(c, s, e);
            && (id in t.place <==> id in s.place)
            && (id in s.place ==> t.place[id] == s.place[id] || t.place[id] == Trimmed)
  {
    match e
    case PushNext(p) =>
    case _ =>
  }

  lemma OtherContent(c: Config, s: State, e: Event, p: nat)
    requires Accepted(c) && QueueInv(c, s)
    requires var t := Step(c, s, e); p in t.pushes && About(s, e) != Some(t.pushes[p].item.id)
    ensures ContentInv(c, Step(c, s, e), p)
  {
    var id := Step(c, s, e).pushes[p].item.id;
    assert id in s.db.zset ==> At(s, id, InSet);
    OtherThreadsUntouched(c, s, e, id);
    OtherPlaceUntouched(c, s, e, id);
    OtherKeysUntouched(c, s, e, id);
    assert ContentInv(c, s, p);
    if id in s.place { assert IdInv(s, id); }
  }

  /** Nothing is stored yet for an id that was never pushed. */
  lemma StartContent(c: Config, s: State, p: nat, item: Item)
    requires Accepted(c) && QueueInv(c, s) && p !in s.pushes && GoodItem(item)
    requires Distinct(Step(c, s, StartPush(p, item)))
    ensures ContentInv(c, Step(c, s, StartPush(p, item)), p)
  {
    var t := Step(c, s, StartPush(p, item));
    forall p' | p' in s.pushes ensures s.pushes[p'].item.id != item.id {
      assert p' in t.pushes && t.pushes[p'] == s.pushes[p'] && t.pushes[p].item == item;
    }
    assert !Known(s, item.id);
  }

  lemma OwnPushContent(c: Config, s: State, p: nat)
    requires Accepted(c) && QueueInv(c, s) && p in s.pushes
    ensures ContentInv(c, PushCommand(c, s, p), p)
  {
    KeysApart(c);
    assert ContentInv(c, s, p) && PushInv(s, p);
    var item := s.pushes[p].item;
    if item.id in s.place { assert IdInv(s, item.id); }
    match s.pushes[p].pc
    case AtPayload =>
    case AtHeaders =>
    case AtAdd =>
    case AtTrim => assert item.id in s.db.zset ==> At(s, item.id, InSet);
    case _ =>
  }

  /** What a pop's step on an id knows of the id's push. */
  lemma PopKnows(c: Config, s: State, p: nat, q: nat)
    requires Accepted(c) && QueueInv(c, s) && p in s.pushes && q in s.pops && s.pops[q].id == s.pushes[p].item.id && Distinct(s)
    ensures ContentInv(c, s, p) && PushInv(s, p) && PopInv(s, q)
    ensures s.pushes[p].item.id in s.place && IdInv(s, s.pushes[p].item.id)
    ensures s.pops[q].score == ScoreOf(s.pushes[p].item)
    ensures PriorityFromScore(s.pops[q].score) == Clamp(s.pushes[p].item.priority)
  {
    var item := s.pushes[p].item;
    assert PopInv(s, q) && PushInv(s, p);
    assert s.owner[item.id] == p;
    assert IdInv(s, item.id);
    PriorityRecovered(item.priority, item.arrival);
  }

  lemma TakeContent(c: Config, s: State, q: nat, id: string, p: nat)
    requires Accepted(c) && QueueInv(c, s) && Distinct(s) && p in s.pushes && s.pushes[p].item.id == id
    ensures ContentInv(c, Step(c, s, PopMin(q, id)), p)
  {
    assert ContentInv(c, s, p) && PushInv(s, p);
    if id in s.place { assert IdInv(s, id); }
  }

  lemma ReadContent(c: Config, s: State, e: Event, p: nat)
    requires Accepted(c) && QueueInv(c, s) && Distinct(s) && p in s.pushes
    requires (e.GetPayload? || e.GetHeaders?) && About(s, e) == Some(s.pushes[p].item.id)
    ensures ContentInv(c, Step(c, s, e), p)
  {
    assert ContentInv(c, s, p);
    if e.q in s.pops { PopKnows(c, s, p, e.q); }
  }

  lemma RestoreContent(c: Config, s: State, q: nat, p: nat)
    requires Accepted(c) && QueueInv(c, s) && Distinct(s) && p in s.pushes
    requires About(s, Restore(q)) == Some(s.pushes[p].item.id)
    ensures ContentInv(c, Step(c, s, Restore(q)), p)
  {
    assert ContentInv(c, s, p);
    if q in s.pops { PopKnows(c, s, p, q); }
  }

  lemma DeleteContent(c: Config, s: State, e: Event, p: nat)
    requires Accepted(c) && QueueInv(c, s) && Distinct(s) && p in s.pushes
    requires e.Delete? && About(s, e) == Some(s.pushes[p].item.id)
    ensures ContentInv(c, Step(c, s, e), p)
  {
    KeysApart(c);
    assert ContentInv(c, s, p);
    if e.q in s.pops { PopKnows(c, s, p, e.q); }
  }

  lemma OwnPopContent(c: Config, s: State, e: Event, p: nat)
    requires Accepted(c) && QueueInv(c, s) && Distinct(s)
    requires e.PopMin? || e.GetPayload? || e.GetHeaders? || e.Restore? || e.Delete?
    requires p in s.pushes && About(s, e) == Some(s.pushes[p].item.id)
    ensures ContentInv(c, Step(c, s, e), p)
  {
    match e
    case PopMin(q, id) => TakeContent(c, s, q, id, p);
    case Restore(q) => RestoreContent(c, s, q, p);
    case Delete(_, _) => DeleteContent(c, s, e, p);
    case _ => ReadContent(c, s, e, p);
  }

  lemma OwnEndContent(c: Config, s: State, e: Event, p: nat)
    requires QueueInv(c, s) && (e.PushFail? || e.TrimFail?) && e.p in s.pushes && p == e.p
    ensures ContentInv(c, Step(c, s, e), p)
  {
    assert ContentInv(c, s, p) && PushInv(s, p);
  }

  /** Among distinct ids a push's own event is about its id. */
  lemma AboutOwn(c: Config, s: State, e: Event, p: nat)
    requires Distinct(s) && Distinct(Step(c, s, e)) && p in Step(c, s, e).pushes
    requires About(s, e) == Some(Step(c, s, e).pushes[p].item.id) && Step(c, s, e) != s
    ensures p in s.pushes ==> s.pushes[p].item == Step(c, s, e).pushes[p].item
    ensures e.StartPush? ==> e.p == p && p !in s.pushes && GoodItem(e.item)
    ensures e.PushNext? || e.PushFail? || e.TrimFail? ==> e.p == p && p in s.pushes
    ensures !e.StartPush? ==> p in s.pushes
  {
    PushesStay(c, s, e);
  }

  lemma ContentStep(c: Config, s: State, e: Event, p: nat)
    requires Accepted(c) && QueueInv(c, s) && Distinct(s) && Distinct(Step(c, s, e))
    requires p in Step(c, s, e).pushes
    ensures ContentInv(c, Step(c, s, e), p)
  {
    if Step(c, s, e) == s {
      assert ContentInv(c, s, p);
    } else if About(s, e) != Some(Step(c, s, e).pushes[p].item.id) {
      OtherContent(c, s, e, p);
    } else {
      AboutOwn(c, s, e, p);
      match e {
        case StartPush(_, item) => StartContent(c, s, p, item);
        case PushNext(_) => OwnPushContent(c, s, p);
        case PushFail(_) => OwnEndContent(c, s, e, p);
        case TrimFail(_) => OwnEndContent(c, s, e, p);
        case _ => OwnPopContent(c, s, e, p);
      }
    }
  }

  lemma KnownStep(c: Config, s: State, e: Event, id: string)
    requires Accepted(c) && HeaderKey(c, id) in Step(c, s, e).db.strings
    requires HeaderKey(c, id) in s.db.strings ==> Known(s, id)
    ensures Known(Step(c, s, e), id)
  {
    var t := Step(c, s, e);
    PushesStay(c, s, e);
    if Subject(s, e) != Some(id) {
      OtherKeysUntouched(c, s, e, id);
      var p :| p in s.pushes && s.pushes[p].item.id == id;
      assert t.pushes[p].item.id == id;
    } else if e.PushNext? {
      assert t.pushes[e.p].item.id == id;
    }
  }

  lemma QueueStep(c: Config, s: State, e: Event)
    requires Accepted(c) && QueueInv(c, s) && Distinct(s) && Distinct(Step(c, s, e))
    ensures QueueInv(c, Step(c, s, e))
  {
    PlaceStep(c, s, e);
    var t := Step(c, s, e);
    forall p | p in t.pushes ensures ContentInv(c, t, p) { ContentStep(c, s, e, p); }
    forall id | HeaderKey(c, id) in t.db.strings ensures Known(t, id) { KnownStep(c, s, e, id); }
  }

  lemma {:induction false} AlwaysQueueInv(c: Config, run: seq<Event>)
    requires Accepted(c) && Distinct(Exec(c, run))
    ensures QueueInv(c, Exec(c, run))
  {
    if run != [] {
      var before := run[..|run| - 1];
      PushesStay(c, Exec(c, before), run[|run| - 1]);
      AlwaysQueueInv(c, before);
      QueueStep(c, Exec(c, before), run[|run| - 1]);
    }
  }

  // ---- the theorems, for pushes with distinct ids

  ghost predicate WithSomePop(s: State, id: string)
  {
    exists q :: Has(s, q, id)
  }

  /** Every added push is in exactly one place, and the pop that returns it returns exactly its
      own payload, headers and priority, or 2 for a priority outside 1 to 3; a push not added yet is
      nowhere. */
  lemma Conservation(c: Config, run: seq<Event>, p: nat)
    requires Accepted(c) && Distinct(Exec(c, run)) && p in Exec(c, run).pushes
    ensures var s := Exec(c, run);
            var Push(item, pc, added) := s.pushes[p];
            var here, held, cut := item.id in s.db.zset, WithSomePop(s, item.id), At(s, item.id, Trimmed);
            && (pc == Completed ==> added)
            && (added <==> here || held || cut)
            && !(here && held) && !(here && cut) && !(held && cut)
            && (forall q, q' :: Has(s, q, item.id) && Has(s, q', item.id) ==> q == q')
            && (here ==> s.db.zset[item.id] == ScoreOf(item) && PayloadIn(c, s, item) && HeadersIn(c, s, item))
            && (forall q :: Has(s, q, item.id) && s.pops[q].phase.Returned? ==>
                  s.pops[q].phase.result == Result(item.id, if 1 <= item.priority <= 3 then item.priority else 2,
                                                   Some(item.payload), if item.headers == map[] then None else Some(item.headers)))
  {
    AlwaysQueueInv(c, run);
    var s := Exec(c, run);
    var item := s.pushes[p].item;
    assert PushInv(s, p) && ContentInv(c, s, p);
    PriorityRecovered(item.priority, item.arrival);
    if item.id in s.place { assert IdInv(s, item.id); }
    forall q | Has(s, q, item.id) ensures At(s, item.id, WithPop(q)) { assert PopInv(s, q); }
    if s.pushes[p].added && At(s, item.id, InSet) { assert item.id in s.db.zset; }
    if item.id in s.db.zset { assert At(s, item.id, InSet) && OwnedAs(s, item.id, s.db.zset[item.id]); }
  }

  /** Every pop takes, of all pushes waiting, the one least by priority, then arrival, then id. */
  lemma PopTakesLeast(c: Config, run: seq<Event>, id: string, p: nat, other: nat)
    requires Accepted(c) && Distinct(Exec(c, run))
    requires IsMin(Exec(c, run).db.zset, id)
    requires Added(Exec(c, run), p, id)
    requires var s := Exec(c, run); other != p && other in s.pushes && s.pushes[other].item.id in s.db.zset
    ensures var s := Exec(c, run);
            var a, b := s.pushes[p].item, s.pushes[other].item;
            var m, n := if 1 <= a.priority <= 3 then a.priority else 2, if 1 <= b.priority <= 3 then b.priority else 2;
            m < n || (m == n && a.arrival < b.arrival) || (m == n && a.arrival == b.arrival && Less(a.id, b.id))
  {
    var s := Exec(c, run);
    Conservation(c, run, p);
    Conservation(c, run, other);
    var a, b := s.pushes[p].item, s.pushes[other].item;
    AlwaysQueueInv(c, run);
    assert PushInv(s, p) && PushInv(s, other);
    assert Before(s.db.zset, a.id, b.id);
    ScoreOrder(a.priority, a.arrival, b.priority, b.arrival);
  }

  // ---- ids pushed again and again, also by old-version pushers

  ghost predicate HeadersFrom(c: Config, s: State, id: string, sha: string, headers: Headers)
  {
    exists p :: p in s.pushes && var item := s.pushes[p].item;
      item.id == id && item.headers == headers && c.digest(item.payload) == sha && !item.oldVersion
  }

  ghost predicate PayloadFrom(s: State, id: string, bytes: string)
  {
    exists p :: p in s.pushes && s.pushes[p].item.id == id && s.pushes[p].item.payload == bytes
  }

  function Bytes(payload: Option<string>): string
  {
    if payload.Some? then payload.value else ""
  }

  ghost predicate ResultFrom(c: Config, s: State, id: string, r: Result)
  {
    && (r.payload.Some? ==> PayloadFrom(s, id, r.payload.value))
    && (r.headers.Some? ==> HeadersFrom(c, s, id, c.digest(Bytes(r.payload)), r.headers.value))
  }

  ghost predicate StoredFrom(c: Config, s: State, id: string)
  {
    && (HeaderKey(c, id) in s.db.strings ==>
          var v := s.db.strings[HeaderKey(c, id)]; v.Envelope? && HeadersFrom(c, s, id, v.sha, v.headers))
    && (EntryKey(c, id) in s.db.strings ==>
          var v := s.db.strings[EntryKey(c, id)]; v.Payload? && PayloadFrom(s, id, v.bytes))
  }

  ghost predicate PopFrom(c: Config, s: State, q: nat)
    requires q in s.pops
  {
    match s.pops[q].phase
    case GotPayload(payload) => payload.Some? ==> PayloadFrom(s, s.pops[q].id, payload.value)
    case Deleting(r) => ResultFrom(c, s, s.pops[q].id, r)
    case Returned(r) => ResultFrom(c, s, s.pops[q].id, r)
    case _ => true
  }

  ghost predicate Provenance(c: Config, s: State)
  {
    && (forall id :: StoredFrom(c, s, id))
    && (forall q :: q in s.pops ==> PopFrom(c, s, q))
    && (forall p :: p in s.pushes ==> GoodItem(s.pushes[p].item))
  }

  /** What was pushed stays pushed. */
  lemma SourcesStay(c: Config, s: State, e: Event, id: string)
    ensures forall sha, h :: HeadersFrom(c, s, id, sha, h) ==> HeadersFrom(c, Step(c, s, e), id, sha, h)
    ensures forall b :: PayloadFrom(s, id, b) ==> PayloadFrom(Step(c, s, e), id, b)
  {
    PushesStay(c, s, e);
    var t := Step(c, s, e);
    forall sha, h | HeadersFrom(c, s, id, sha, h) ensures HeadersFrom(c, t, id, sha, h) {
      var p :| p in s.pushes && var item := s.pushes[p].item;
        item.id == id && item.headers == h && c.digest(item.payload) == sha && !item.oldVersion;
      assert p in t.pushes && t.pushes[p].item == s.pushes[p].item;
    }
    forall b | PayloadFrom(s, id, b) ensures PayloadFrom(t, id, b) {
      var p :| p in s.pushes && s.pushes[p].item.id == id && s.pushes[p].item.payload == b;
      assert p in t.pushes && t.pushes[p].item == s.pushes[p].item;
    }
  }

  /** A push is a source for what it writes. */
  lemma PushIsSource(c: Config, s: State, p: nat)
    requires p in s.pushes
    ensures var item := s.pushes[p].item;
            && PayloadFrom(s, item.id, item.payload)
            && (!item.oldVersion ==> HeadersFrom(c, s, item.id, c.digest(item.payload), item.headers))
  {
  }

  lemma StoredByPush(c: Config, s: State, p: nat)
    requires Accepted(c) && p in s.pushes && GoodItem(s.pushes[p].item) && StoredFrom(c, s, s.pushes[p].item.id)
    ensures StoredFrom(c, PushCommand(c, s, p), s.pushes[p].item.id)
  {
    KeysApart(c);
    var item, t := s.pushes[p].item, PushCommand(c, s, p);
    assert t == Step(c, s, PushNext(p));
    SourcesStay(c, s, PushNext(p), item.id);
    PushKeepsItem(c, s, p);
    PushIsSource(c, t, p);
    PushWrites(c, s, p);
  }

  lemma PushKeepsItem(c: Config, s: State, p: nat)
    requires p in s.pushes
    ensures p in PushCommand(c, s, p).pushes && PushCommand(c, s, p).pushes[p].item == s.pushes[p].item
  {
  }

  /** What a command of a push can leave under its two keys. */
  lemma PushWrites(c: Config, s: State, p: nat)
    requires Accepted(c) && p in s.pushes && GoodItem(s.pushes[p].item)
    ensures var item, before, after := s.pushes[p].item, s.db.strings, PushCommand(c, s, p).db.strings;
            var e, h := EntryKey(c, item.id), HeaderKey(c, item.id);
            && (e in after ==> after[e] == Payload(item.payload) || (e in before && after[e] == before[e]))
            && (h in after ==>
                  (h in before && after[h] == before[h])
                  || after[h] == Envelope(c.digest(item.payload), item.headers))
  {
    KeysApart(c);
  }

  lemma StoredStep(c: Config, s: State, e: Event, id: string)
    requires Accepted(c) && Provenance(c, s)
    ensures StoredFrom(c, Step(c, s, e), id)
  {
    assert StoredFrom(c, s, id);
    if Subject(s, e) != Some(id) {
      SourcesStay(c, s, e, id);
      OtherKeysUntouched(c, s, e, id);
    } else if e.PushNext? {
      StoredByPush(c, s, e.p);
    } else {
      SourcesStay(c, s, e, id);
    }
  }

  /** The digest check: what is read was stored together. */
  lemma ReadFrom(c: Config, s: State, id: string, payload: Option<string>)
    requires StoredFrom(c, s, id)
    requires forall x :: c.digest(x) != ""
    ensures var h := ReadHeaders(c, s.db, id, payload);
            h.Some? ==> HeadersFrom(c, s, id, c.digest(Bytes(payload)), h.value)
    ensures var b := ReadPayload(c, s.db, id); b.Some? ==> PayloadFrom(s, id, b.value)
  {
  }

  /** The pop an event is a step of. */
  function PopOf(e: Event): Option<nat>
  {
    if e.PopMin? || e.GetPayload? || e.GetHeaders? || e.Restore? || e.Delete? then Some(e.q) else None
  }

  lemma OtherPopsStay(c: Config, s: State, e: Event, q: nat)
    requires PopOf(e) != Some(q) && q in Step(c, s, e).pops
    ensures q in s.pops && Step(c, s, e).pops[q] == s.pops[q]
  {
  }

  lemma PopFromStays(c: Config, s: State, e: Event, q: nat)
    requires q in s.pops && PopFrom(c, s, q)
    requires var t := Step(c, s, e); q in t.pops && t.pops[q] == s.pops[q]
    ensures PopFrom(c, Step(c, s, e), q)
  {
    SourcesStay(c, s, e, s.pops[q].id);
  }

  lemma PopReads(c: Config, s: State, e: Event, q: nat)
    requires PopOf(e) == Some(q) && q in s.pops && PopFrom(c, s, q) && StoredFrom(c, s, s.pops[q].id)
    requires forall x :: c.digest(x) != ""
    ensures PopFrom(c, Step(c, s, e), q)
  {
    SourcesStay(c, s, e, s.pops[q].id);
    match e
    case GetPayload(_, _) => ReadFrom(c, s, s.pops[q].id, None);
    case GetHeaders(_, _) =>
      if s.pops[q].phase.GotPayload? { ReadFrom(c, s, s.pops[q].id, s.pops[q].phase.payload); }
    case _ =>
  }

  lemma PopFromStep(c: Config, s: State, e: Event, q: nat)
    requires Provenance(c, s) && q in Step(c, s, e).pops
    requires forall x :: c.digest(x) != ""
    ensures PopFrom(c, Step(c, s, e), q)
  {
    if PopOf(e) != Some(q) {
      OtherPopsStay(c, s, e, q);
      PopFromStays(c, s, e, q);
    } else if q in s.pops {
      assert StoredFrom(c, s, s.pops[q].id);
      PopReads(c, s, e, q);
    }
  }

  lemma ItemStaysGood(c: Config, s: State, e: Event, p: nat)
    requires p in Step(c, s, e).pushes && forall i :: i in s.pushes ==> GoodItem(s.pushes[i].item)
    ensures GoodItem(Step(c, s, e).pushes[p].item)
  {
    PushesStay(c, s, e);
  }

  lemma {:induction false} AlwaysProvenance(c: Config, run: seq<Event>)
    requires Accepted(c)
    requires forall x :: c.digest(x) != ""
    ensures Provenance(c, Exec(c, run))
  {
    if run != [] {
      var s, e := Exec(c, run[..|run| - 1]), run[|run| - 1];
      AlwaysProvenance(c, run[..|run| - 1]);
      forall id ensures StoredFrom(c, Step(c, s, e), id) { StoredStep(c, s, e, id); }
      forall q | q in Step(c, s, e).pops ensures PopFrom(c, Step(c, s, e), q) { PopFromStep(c, s, e, q); }
      forall p | p in Step(c, s, e).pushes ensures GoodItem(Step(c, s, e).pushes[p].item) { ItemStaysGood(c, s, e, p); }
    }
  }

  /** In every interleaving of new and old pushers reusing ids: a returned payload was pushed
      under that id, and returned headers were pushed under that id together with a payload of
      the returned payload's digest. */
  lemma HeadersTravelWithTheirPayload(c: Config, run: seq<Event>, q: nat)
    requires Accepted(c)
    requires forall x :: c.digest(x) != ""
    requires q in Exec(c, run).pops && Exec(c, run).pops[q].phase.Returned?
    ensures var s := Exec(c, run); ResultFrom(c, s, s.pops[q].id, s.pops[q].phase.result)
  {
    AlwaysProvenance(c, run);
    assert PopFrom(c, Exec(c, run), q);
  }

  /** Without digest collisions: one push carried both, and a pop that finds no payload returns
      no headers. */
  lemma OnePushCarriedBoth(c: Config, run: seq<Event>, q: nat)
    requires Accepted(c)
    requires forall x :: c.digest(x) != ""
    requires forall x, y :: c.digest(x) == c.digest(y) ==> x == y
    requires q in Exec(c, run).pops && Exec(c, run).pops[q].phase.Returned?
    requires Exec(c, run).pops[q].phase.result.headers.Some?
    ensures var s := Exec(c, run); var r := s.pops[q].phase.result;
            && r.payload.Some?
            && (exists p :: p in s.pushes && s.pushes[p].item.id == s.pops[q].id
                            && s.pushes[p].item.payload == r.payload.value && s.pushes[p].item.headers == r.headers.value)
  {
    HeadersTravelWithTheirPayload(c, run, q);
    AlwaysProvenance(c, run);
    var s := Exec(c, run);
    var r := s.pops[q].phase.result;
    var p :| p in s.pushes && var item := s.pushes[p].item;
      item.id == s.pops[q].id && item.headers == r.headers.value && c.digest(item.payload) == c.digest(Bytes(r.payload));
    assert GoodItem(s.pushes[p].item);
  }

  // ---- the object, one caller at a time

  datatype PopError = NoError | GetFailed(restored: bool)

  /** What BZPOPMIN, the two GETs and the DEL yield on an undisturbed queue. */
  function Reading(c: Config, db: Db, id: string): Result
    requires id in db.zset
  {
    var payload := ReadPayload(c, db, id);
    Result(id, PriorityFromScore(db.zset[id]), payload, ReadHeaders(c, db, id, payload))
  }

  /** The queue once a member has been popped and read. */
  function Popped(c: Config, db: Db, id: string, deleteFails: bool): Db
  {
    if deleteFails then RemoveMember(db, id) else DeleteStrings(c, RemoveMember(db, id), id)
  }

  /** Which of a pop's commands fail: the two GETs, the restoring ZADD, the DEL. */
  datatype PopFault = PopFault(payload: bool, headers: bool, restore: bool, delete: bool)

  datatype Message = Message(key: string, value: string, headers: Headers)

  function Digits(n: nat): string
  {
    (if n < 10 then "" else Digits(n / 10)) + ["0123456789"[n % 10]]
  }

  function Itoa(n: int): string
  {
    if n < 0 then "-" + Digits(-n) else Digits(n)
  }

  /** The priority header always comes from the score, over whatever was pushed. */
  function ToMessage(r: Result): Message
    requires r.payload.Some?
  {
    var headers := if r.headers.Some? then r.headers.value else map[];
    Message(r.id, r.payload.value, headers["priority" := Itoa(r.priority)])
  }

  /** A payload is read exactly when its entry is there; headers, exactly when they were stored for
      that payload, or by a writer that gave no digest. */
  lemma ReadingMeans(c: Config, db: Db, id: string)
    requires id in db.zset && (EntryKey(c, id) in db.strings ==> db.strings[EntryKey(c, id)].Payload?)
    ensures var r, e, h := Reading(c, db, id), EntryKey(c, id), HeaderKey(c, id);
            var bytes := if r.payload.Some? then r.payload.value else "";
            && r.id == id && r.priority == PriorityFromScore(db.zset[id])
            && (r.payload.Some? <==> e in db.strings) && (e in db.strings ==> db.strings[e] == Payload(bytes))
            && (r.headers.Some? <==> h in db.strings && db.strings[h].Envelope? && db.strings[h].sha in {"", c.digest(bytes)})
            && (r.headers.Some? ==> db.strings[h].headers == r.headers.value)
  {
  }

  /** The message has its own key and payload; its priority header is the score's priority in
      decimal, and its other headers are those that were stored. */
  lemma MessageMeans(r: Result)
    requires r.payload.Some?
    ensures var m := ToMessage(r);
            && m.key == r.id && m.value == r.payload.value && "priority" in m.headers
            && (r.priority == 1 ==> m.headers["priority"] == "1")
            && (r.priority == 2 ==> m.headers["priority"] == "2")
            && (r.priority == 3 ==> m.headers["priority"] == "3")
            && (forall k :: k != "priority" ==>
                  (k in m.headers <==> r.headers.Some? && k in r.headers.value)
                  && (k in m.headers ==> m.headers[k] == r.headers.value[k]))
  {
    assert Digits(1) == "1" && Digits(2) == "2" && Digits(3) == "3";
  }

  /** What a pop of any item with an arrival in range is turned into carries the item's priority. */
  lemma MessageCarriesPriority(c: Config, db: Db, id: string, item: Item)
    requires id in db.zset && db.zset[id] == ScoreOf(item) && 0 <= item.arrival < 10_000_000_000_000
    requires EntryKey(c, id) in db.strings
    ensures Reading(c, db, id).payload.Some?
    ensures var header := ToMessage(Reading(c, db, id)).headers["priority"];
            && (item.priority == 1 ==> header == "1")
            && (item.priority == 3 ==> header == "3")
            && (item.priority != 1 && item.priority != 3 ==> header == "2")
  {
    PriorityRecovered(item.priority, item.arrival);
    MessageMeans(Reading(c, db, id));
  }

  /** A trim that runs leaves at most the configured number of members, none of which comes after one
      that it drops, and drops nothing while there is room. */
  lemma TrimBounds(c: Config, s: State, p: nat)
    requires p in s.pushes && s.pushes[p].pc == AtTrim
    ensures var kept := PushCommand(c, s, p).db.zset;
            && |kept| <= c.maxSize && (|s.db.zset| <= c.maxSize ==> kept == s.db.zset)
            && (forall a :: a in kept ==> a in s.db.zset && kept[a] == s.db.zset[a])
            && (forall a, b :: a in kept && b in s.db.zset && b !in kept ==> Before(s.db.zset, a, b))
  {
    TrimIsPrefix(s.db.zset, c.maxSize);
  }

  /** db is what is left of start after popping members whose payload was gone. */
  ghost predicate LeftOver(c: Config, start: Db, db: Db)
  {
    && (forall id :: id in db.zset ==>
          id in start.zset && db.zset[id] == start.zset[id] && Reading(c, db, id) == Reading(c, start, id))
    && (forall id :: id in start.zset && id !in db.zset ==> Reading(c, start, id).payload.None?)
  }

  lemma ReadingElsewhere(c: Config, db: Db, id: string, b: string)
    requires Accepted(c) && b in db.zset && b != id
    ensures Reading(c, DeleteStrings(c, RemoveMember(db, id), id), b) == Reading(c, db, b)
  {
    KeysApart(c);
    assert EntryKey(c, b) != EntryKey(c, id) && EntryKey(c, b) != HeaderKey(c, id);
    assert HeaderKey(c, b) != EntryKey(c, id) && HeaderKey(c, b) != HeaderKey(c, id);
  }

  lemma PopLeavesOver(c: Config, start: Db, db: Db, id: string, deleteFails: bool)
    requires Accepted(c) && LeftOver(c, start, db) && id in db.zset && Reading(c, db, id).payload.None?
    ensures LeftOver(c, start, Popped(c, db, id, deleteFails))
  {
    var next := Popped(c, db, id, deleteFails);
    forall b | b in next.zset
      ensures b in start.zset && next.zset[b] == start.zset[b] && Reading(c, next, b) == Reading(c, start, b)
    {
      ReadingElsewhere(c, db, id, b);
    }
    forall b | b in start.zset && b !in next.zset ensures Reading(c, start, b).payload.None? {
      if b == id { assert Reading(c, db, id) == Reading(c, start, id); }
    }
  }

  ghost predicate FirstWithPayload(c: Config, db: Db, id: string)
  {
    && id in db.zset && Reading(c, db, id).payload.Some?
    && forall b :: b in db.zset && Reading(c, db, b).payload.Some? && b != id ==> Before(db.zset, id, b)
  }

  lemma MinIsFirst(c: Config, start: Db, db: Db, id: string)
    requires LeftOver(c, start, db) && IsMin(db.zset, id) && Reading(c, db, id).payload.Some?
    ensures FirstWithPayload(c, start, id) && Reading(c, start, id) == Reading(c, db, id)
  {
    forall b | b in start.zset && Reading(c, start, b).payload.Some? && b != id ensures Before(start.zset, id, b) {
      assert b in db.zset && Before(db.zset, id, b);
    }
  }

  /** What a completed push leaves in the strings: its payload, exactly its headers, the rest as it was. */
  predicate StoredExactly(c: Config, before: map<string, Value>, after: map<string, Value>, item: Item)
  {
    var e, h := EntryKey(c, item.id), HeaderKey(c, item.id);
    && e in after && after[e] == Payload(item.payload)
    && (h in after <==> item.headers != map[])
    && (h in after ==> after[h] == Envelope(c.digest(item.payload), item.headers))
    && after - {e, h} == before - {e, h}
  }

  lemma StoresExactly(c: Config, db: Db, item: Item)
    requires Accepted(c)
    ensures StoredExactly(c, db.strings, WriteHeaders(c, WritePayload(c, db, item), item).strings, item)
  {
    KeysApart(c);
    assert EntryKey(c, item.id) != HeaderKey(c, item.id);
  }

  /** What it leaves in the sorted set: its member, and of all only the lowest maxSize unless the trim
      failed. */
  predicate RankedExactly(c: Config, before: ZSet, after: ZSet, item: Item, trimFails: bool)
  {
    var full := before[item.id := Score(item.priority, item.arrival)];
    && (trimFails || |full| <= c.maxSize ==> after == full)
    && (!trimFails ==>
          && |after| <= c.maxSize && (forall a :: a in after ==> a in full && after[a] == full[a])
          && (forall a, b :: a in after && b in full && b !in after ==> Before(full, a, b)))
  }

  lemma RanksExactly(c: Config, db: Db, item: Item, trimFails: bool)
    ensures var added := AddMember(db, item.id, ScoreOf(item));
            RankedExactly(c, db.zset, (if trimFails then added else Trim(c, added)).zset, item, trimFails)
  {
    TrimIsPrefix(AddMember(db, item.id, ScoreOf(item)).zset, c.maxSize);
  }

  class PriorityZSetQueue {
    const config: Config
    var db: Db

    constructor (config: Config)
      requires Accepted(config)
      ensures this.config == config && db == Db(map[], map[])
    {
      this.config, this.db := config, Db(map[], map[]);
    }

    /** sent is how many of the pipeline's commands reach Redis before the connection fails. */
    method PushWithHeaders(item: Item, sent: nat, trimFails: bool) returns (ok: bool)
      requires !item.oldVersion
      modifies this
      ensures item.id == "" || item.payload == "" ==> !ok && db == old(db)
      ensures item.id != "" && item.payload != "" ==>
                var first := WritePayload(config, old(db), item);
                var second := WriteHeaders(config, first, item);
                var third := AddMember(second, item.id, ScoreOf(item));
                && (ok <==> sent >= 3)
                && db == (if sent == 0 then old(db) else if sent == 1 then first else if sent == 2 then second
                          else if trimFails then third else Trim(config, third))
      ensures ok && Accepted(config) ==> StoredExactly(config, old(db).strings, db.strings, item)
      ensures ok ==> RankedExactly(config, old(db).zset, db.zset, item, trimFails)
    {
      if item.id == "" || item.payload == "" { return false; }
      if Accepted(config) { StoresExactly(config, db, item); }
      RanksExactly(config, db, item, trimFails);
      ok := false;
      if sent == 0 { return; }
      db := db.(strings := db.strings[EntryKey(config, item.id) := Payload(item.payload)]);
      if sent == 1 { return; }
      if item.headers != map[] {
        db := db.(strings := db.strings[HeaderKey(config, item.id) :=
                                        Envelope(config.digest(item.payload), item.headers)]);
      } else {
        db := db.(strings := db.strings - {HeaderKey(config, item.id)});
      }
      if sent == 2 { return; }
      db := db.(zset := db.zset[item.id := ScoreOf(item)]);
      if !trimFails {
        db := db.(zset := KeepLowest(db.zset, config.maxSize));
      }
      ok := true;
    }

    /** A failed GET leaves the queue exactly as it was, unless putting the member back fails too. */
    method Pop(payloadFails: bool, headersFail: bool, restoreFails: bool, deleteFails: bool)
      returns (result: Option<Result>, err: PopError, ghost took: string)
      modifies this
      ensures old(db).zset == map[] <==> result == None && err == NoError
      ensures old(db).zset == map[] ==> db == old(db)
      ensures old(db).zset != map[] ==>
                && IsMin(old(db).zset, took)
                && (if payloadFails || headersFail then
                      && result == None && err == GetFailed(!restoreFails)
                      && db == (if restoreFails then RemoveMember(old(db), took) else old(db))
                    else
                      && result == Some(Reading(config, old(db), took)) && err == NoError
                      && db == Popped(config, old(db), took, deleteFails))
      ensures result.Some? ==>
                var e, h := EntryKey(config, took), HeaderKey(config, took);
                && result.value.id == took && db.zset == old(db).zset - {took}
                && db.strings == (if deleteFails then old(db).strings else old(db).strings - {e, h})
    {
      took := "";
      if |db.zset| == 0 { return None, NoError, took; }
      ghost var least := MinExists(db.zset, db.zset.Keys);
      var id :| id in db.zset && IsMin(db.zset, id);
      took := id;
      var score := db.zset[id];
      db := db.(zset := db.zset - {id});
      var payload := ReadPayload(config, db, id);
      if payloadFails || headersFail {
        if !restoreFails { db := db.(zset := db.zset[id := score]); }
        return None, GetFailed(!restoreFails), took;
      }
      var headers := ReadHeaders(config, db, id, payload);
      if !deleteFails {
        db := db.(strings := db.strings - {EntryKey(config, id), HeaderKey(config, id)});
      }
      return Some(Result(id, PriorityFromScore(score), payload, headers)), NoError, took;
    }

    /** The first member, in queue order, whose payload is still there, whatever fails on the way:
        faults are those of the pops in turn, none beyond the end of the list. left is the queue when
        the last member was taken. With neither a message nor an error the queue ran empty, where
        the source keeps polling. */
    method FetchMessage(faults: seq<PopFault>) returns (m: Option<Message>, err: PopError, ghost left: Db, ghost took: string)
      requires Accepted(config)
      modifies this
      ensures LeftOver(config, old(db), left)
      ensures m.None? && err == NoError ==>
                db == left && db.zset == map[] && forall id :: id in old(db).zset ==> Reading(config, old(db), id).payload.None?
      ensures m.Some? ==>
                && err == NoError && FirstWithPayload(config, old(db), took)
                && m == Some(ToMessage(Reading(config, old(db), took)))
                && m.value.key == took && Some(m.value.value) == Reading(config, old(db), took).payload
                && (db == Popped(config, left, took, false) || db == Popped(config, left, took, true))
      ensures err.GetFailed? ==>
                m.None? && IsMin(left.zset, took) && db == if err.restored then left else RemoveMember(left, took)
    {
      m, err, left, took := None, NoError, db, "";
      var i := 0;
      while |db.zset| > 0
        invariant left == db && LeftOver(config, old(db), db)
        decreases |db.zset|
      {
        var fault := if i < |faults| then faults[i] else PopFault(false, false, false, false);
        var r, failed;
        r, failed, took := Pop(fault.payload, fault.headers, fault.restore, fault.delete);
        if failed.GetFailed? { return None, failed, left, took; }
        if r.value.payload.Some? {
          MinIsFirst(config, old(db), left, took);
          return Some(ToMessage(r.value)), NoError, left, took;
        }
        PopLeavesOver(config, old(db), left, took, fault.delete);
        assert left.zset.Keys == db.zset.Keys + {took};
        left, i := db, i + 1;
      }
    }
  }
}
