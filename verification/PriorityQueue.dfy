/** The priority queue of pkg/queue/priority_zset.go: what its pushes and pops send to Redis,
    command by command. A pipeline is not atomic, so a list of events is one interleaving of
    the commands of any number of pushes, old-version pushes and pops. */
module PriorityQueue {
  import opened Strings
  import opened ZSet

  // ---- scores

  const PriorityFactor: int := 10_000_000_000_000

  function Clamp(priority: int): (p: int)
    ensures 1 <= p <= 3
  {
    if priority < 1 || priority > 3 then 2 else priority
  }

  /** arrival is in milliseconds since the epoch. */
  function Score(priority: int, arrival: int): int
  {
    Clamp(priority) * PriorityFactor + arrival
  }

  /** Go's conversion to int truncates towards zero. */
  function PriorityFromScore(score: int): int
  {
    if score >= 0 then score / PriorityFactor else -((-score) / PriorityFactor)
  }

  /** The priority comes back from the score exactly for arrivals from 1970 until 1e13 ms,
      in the year 2286: a valid one as itself, any other one as 2. */
  lemma PriorityRecovered(priority: int, arrival: int)
    ensures var back, inRange := PriorityFromScore(Score(priority, arrival)), 0 <= arrival < 10_000_000_000_000;
            && (1 <= priority <= 3 ==> (back == priority <==> inRange))
            && (priority < 1 || priority > 3 ==> (back == 2 <==> inRange))
    ensures priority < 1 || priority > 3 ==> Score(priority, arrival) == Score(2, arrival)
  {
  }

  /** Score order is priority first, arrival second; a priority outside 1 to 3 counts as 2. */
  lemma ScoreOrder(p: int, a: int, q: int, b: int)
    requires 0 <= a < 10_000_000_000_000 && 0 <= b < 10_000_000_000_000
    ensures 1 <= p < q <= 3 ==> Score(p, a) < Score(q, b)
    ensures p == q ==> (Score(p, a) < Score(q, b) <==> a < b)
    ensures var m, n := if 1 <= p <= 3 then p else 2, if 1 <= q <= 3 then q else 2;
            && (Score(p, a) < Score(q, b) <==> m < n || (m == n && a < b))
            && (Score(p, a) == Score(q, b) <==> m == n && a == b)
  {
  }

  // ---- configuration and keys

  type Headers = map<string, string>

  /** digest abbreviates the SHA-256 of a payload to a hex string, never the empty one. */
  datatype Config = Config(entryPrefix: string, headerPrefix: string, maxSize: nat, digest: string -> string)

  const HeaderMarker := "hdr:"
  const DefaultMaxSize: nat := 100_000

  predicate Overlap(a: string, b: string)
  {
    a <= b || b <= a
  }

  /** NewPriorityZSetQueue; None is its error. */
  function NewQueue(zsetKey: string, entryPrefix: string, headerPrefix: string, maxSize: int, digest: string -> string): Option<Config>
  {
    var header := if headerPrefix == "" then HeaderMarker + entryPrefix else headerPrefix;
    if zsetKey == "" || entryPrefix == "" || Overlap(header, entryPrefix) then None
    else Some(Config(entryPrefix, header, if maxSize <= 0 then DefaultMaxSize else maxSize, digest))
  }

  function EntryKey(c: Config, id: string): string
  {
    c.entryPrefix + id
  }

  function HeaderKey(c: Config, id: string): string
  {
    c.headerPrefix + id
  }

  /** The prefix check is exactly what keeps the two key spaces apart. */
  lemma PrefixCheckExact(c: Config)
    ensures Overlap(c.headerPrefix, c.entryPrefix) <==> exists i, j :: EntryKey(c, i) == HeaderKey(c, j)
  {
    var e, h := c.entryPrefix, c.headerPrefix;
    if e <= h { assert EntryKey(c, h[|e|..]) == HeaderKey(c, ""); }
    if h <= e { assert EntryKey(c, "") == HeaderKey(c, e[|h|..]); }
    forall i, j | EntryKey(c, i) == HeaderKey(c, j) ensures Overlap(h, e) {
      assert EntryKey(c, i)[..|e|] == e && HeaderKey(c, j)[..|h|] == h;
    }
  }

  predicate Accepted(c: Config)
  {
    !Overlap(c.headerPrefix, c.entryPrefix) && c.maxSize > 0
  }

  lemma KeysApart(c: Config)
    requires Accepted(c)
    ensures forall i, j :: EntryKey(c, i) != HeaderKey(c, j)
    ensures forall i, j :: EntryKey(c, i) == EntryKey(c, j) ==> i == j
    ensures forall i, j :: HeaderKey(c, i) == HeaderKey(c, j) ==> i == j
  {
    PrefixCheckExact(c);
    forall i, j | EntryKey(c, i) == EntryKey(c, j) ensures i == j {
      assert i == EntryKey(c, i)[|c.entryPrefix|..] && j == EntryKey(c, j)[|c.entryPrefix|..];
    }
    forall i, j | HeaderKey(c, i) == HeaderKey(c, j) ensures i == j {
      assert i == HeaderKey(c, i)[|c.headerPrefix|..] && j == HeaderKey(c, j)[|c.headerPrefix|..];
    }
  }

  /** NewQueue refuses exactly an empty key or prefix and prefixes under which some entry key is some
      header key; what it returns keeps the two apart. The derived prefix is accepted unless the
      entry prefix reads as its own header prefix. */
  lemma NewQueueAccepts(zsetKey: string, entryPrefix: string, headerPrefix: string, maxSize: int, digest: string -> string)
    ensures var q := NewQueue(zsetKey, entryPrefix, headerPrefix, maxSize, digest);
            var header := if headerPrefix == "" then "hdr:" + entryPrefix else headerPrefix;
            && (q.None? <==> zsetKey == "" || entryPrefix == "" || exists i: string, j: string :: entryPrefix + i == header + j)
            && (q.Some? ==> Accepted(q.value) && q.value.entryPrefix == entryPrefix && q.value.headerPrefix == header
                            && q.value.digest == digest && q.value.maxSize == if maxSize <= 0 then 100_000 else maxSize)
            && (headerPrefix == "" && zsetKey != "" && entryPrefix != "" && entryPrefix[0] != 'h' ==> q.Some?)
  {
    if entryPrefix != "" && entryPrefix[0] != 'h' {
      assert (HeaderMarker + entryPrefix)[0] == 'h';
    }
    var header := if headerPrefix == "" then "hdr:" + entryPrefix else headerPrefix;
    var c := Config(entryPrefix, header, 1, digest);
    PrefixCheckExact(c);
    if i, j :| EntryKey(c, i) == HeaderKey(c, j) { assert entryPrefix + i == header + j; }
    if i: string, j: string :| entryPrefix + i == header + j { assert EntryKey(c, i) == HeaderKey(c, j); }
  }

  // ---- Redis

  /** A stored string, as the reader of the header key sees it. */
  datatype Value = Payload(bytes: string) | Envelope(sha: string, headers: Headers)

  datatype Db = Db(zset: ZSet, strings: map<string, Value>)

  /** A push in progress: what it carries. An old-version push knows nothing of headers. */
  datatype Item = Item(id: string, priority: int, arrival: int, payload: string, headers: Headers, oldVersion: bool)

  function ScoreOf(item: Item): int
  {
    Score(item.priority, item.arrival)
  }

  function WritePayload(c: Config, db: Db, item: Item): Db
  {
    db.(strings := db.strings[EntryKey(c, item.id) := Payload(item.payload)])
  }

  function WriteHeaders(c: Config, db: Db, item: Item): Db
  {
    if item.headers == map[] then db.(strings := db.strings - {HeaderKey(c, item.id)})
    else db.(strings := db.strings[HeaderKey(c, item.id) := Envelope(c.digest(item.payload), item.headers)])
  }

  function AddMember(db: Db, id: string, score: int): Db
  {
    db.(zset := db.zset[id := score])
  }

  function Trim(c: Config, db: Db): Db
  {
    db.(zset := KeepLowest(db.zset, c.maxSize))
  }

  function RemoveMember(db: Db, id: string): Db
  {
    db.(zset := db.zset - {id})
  }

  function DeleteStrings(c: Config, db: Db, id: string): Db
  {
    db.(strings := db.strings - {EntryKey(c, id), HeaderKey(c, id)})
  }

  function ReadPayload(c: Config, db: Db, id: string): Option<string>
  {
    if EntryKey(c, id) !in db.strings then None
    else match db.strings[EntryKey(c, id)]
      case Payload(bytes) => Some(bytes)
      case Envelope(_, _) => Some("")
  }

  /** Headers are dropped when they do not decode or belong to another payload. */
  function ReadHeaders(c: Config, db: Db, id: string, payload: Option<string>): Option<Headers>
  {
    if HeaderKey(c, id) !in db.strings then None
    else match db.strings[HeaderKey(c, id)]
      case Payload(_) => None
      case Envelope(sha, headers) =>
        if sha != "" && sha != c.digest(if payload.Some? then payload.value else "") then None else Some(headers)
  }

  datatype Result = Result(id: string, priority: int, payload: Option<string>, headers: Option<Headers>)

  // ---- the interleaving machine

  datatype PushPc = AtPayload | AtHeaders | AtAdd | AtTrim | Completed | Failed

  /** added says that ZADD has run. */
  datatype Push = Push(item: Item, pc: PushPc, added: bool)

  datatype Phase =
    | Took                                // BZPOPMIN has answered
    | GotPayload(payload: Option<string>)
    | Restoring                           // a GET failed, ZADD back still to come
    | Restored
    | Deleting(result: Result)
    | Returned(result: Result)

  datatype Pop = Pop(id: string, score: int, phase: Phase)

  datatype Place = InSet | WithPop(q: nat) | Trimmed

  /** place and owner are history, read by no command: where each id was last put, and by
      which push. */
  datatype State = State(
    db: Db, pushes: map<nat, Push>, pops: map<nat, Pop>, place: map<string, Place>, owner: map<string, nat>)

  datatype Event =
    | StartPush(p: nat, item: Item)
    | PushNext(p: nat)
    | PushFail(p: nat)              // the connection is lost: the remaining commands never run
    | TrimFail(p: nat)              // the trim's error is ignored
    | PopMin(q: nat, id: string)
    | GetPayload(q: nat, fails: bool)
    | GetHeaders(q: nat, fails: bool)
    | Restore(q: nat)
    | Delete(q: nat, fails: bool)   // a failed DEL is ignored

  const Start := State(Db(map[], map[]), map[], map[], map[], map[])

  predicate GoodItem(item: Item)
  {
    item.id != "" && item.payload != "" && 0 <= item.arrival < PriorityFactor && (item.oldVersion ==> item.headers == map[])
  }

  function DoAdd(s: State, p: nat): State
    requires p in s.pushes
  {
    var item := s.pushes[p].item;
    s.(db := AddMember(s.db, item.id, ScoreOf(item)), pushes := s.pushes[p := Push(item, AtTrim, true)],
       place := s.place[item.id := InSet], owner := s.owner[item.id := p])
  }

  /** The push is over, and only the members in kept are left. */
  function DoTrim(s: State, p: nat, kept: ZSet): State
    requires p in s.pushes
  {
    s.(db := s.db.(zset := kept), pushes := s.pushes[p := s.pushes[p].(pc := Completed)],
       place := s.place + map id | id in s.db.zset && id !in kept :: Trimmed)
  }

  function PushCommand(c: Config, s: State, p: nat): State
    requires p in s.pushes
  {
    var item := s.pushes[p].item;
    match s.pushes[p].pc
    case AtPayload =>
      s.(db := WritePayload(c, s.db, item),
         pushes := s.pushes[p := s.pushes[p].(pc := if item.oldVersion then AtAdd else AtHeaders)])
    case AtHeaders => s.(db := WriteHeaders(c, s.db, item), pushes := s.pushes[p := s.pushes[p].(pc := AtAdd)])
    case AtAdd => DoAdd(s, p)
    case AtTrim => DoTrim(s, p, Trim(c, s.db).zset)
    case _ => s
  }

  function DoTake(s: State, q: nat, id: string): State
    requires id in s.db.zset
  {
    s.(db := RemoveMember(s.db, id), pops := s.pops[q := Pop(id, s.db.zset[id], Took)], place := s.place[id := WithPop(q)])
  }

  function DoRestore(s: State, q: nat): State
    requires q in s.pops
  {
    var pop := s.pops[q];
    s.(db := AddMember(s.db, pop.id, pop.score), pops := s.pops[q := pop.(phase := Restored)], place := s.place[pop.id := InSet])
  }

  function InPhase(s: State, q: nat, phase: Phase): State
    requires q in s.pops
  {
    s.(pops := s.pops[q := s.pops[q].(phase := phase)])
  }

  function Step(c: Config, s: State, e: Event): State
  {
    match e
    case StartPush(p, item) =>
      if p !in s.pushes && GoodItem(item) then s.(pushes := s.pushes[p := Push(item, AtPayload, false)]) else s
    case PushNext(p) => if p in s.pushes then PushCommand(c, s, p) else s
    case PushFail(p) =>
      if p in s.pushes && s.pushes[p].pc != Completed then s.(pushes := s.pushes[p := s.pushes[p].(pc := Failed)]) else s
    case TrimFail(p) =>
      if p in s.pushes && s.pushes[p].pc == AtTrim then s.(pushes := s.pushes[p := s.pushes[p].(pc := Completed)]) else s
    case PopMin(q, id) => if q !in s.pops && IsMin(s.db.zset, id) then DoTake(s, q, id) else s
    case GetPayload(q, fails) =>
      if q in s.pops && s.pops[q].phase == Took then
        InPhase(s, q, if fails then Restoring else GotPayload(ReadPayload(c, s.db, s.pops[q].id)))
      else s
    case GetHeaders(q, fails) =>
      if q in s.pops && s.pops[q].phase.GotPayload? then
        var pop := s.pops[q];
        InPhase(s, q, if fails then Restoring
                      else Deleting(Result(pop.id, PriorityFromScore(pop.score), pop.phase.payload,
                                           ReadHeaders(c, s.db, pop.id, pop.phase.payload))))
      else s
    case Restore(q) => if q in s.pops && s.pops[q].phase == Restoring then DoRestore(s, q) else s
    case Delete(q, fails) =>
      if q in s.pops && s.pops[q].phase.Deleting? then
        InPhase(if fails then s else s.(db := DeleteStrings(c, s.db, s.pops[q].id)), q, Returned(s.pops[q].phase.result))
      else s
  }

  function Exec(c: Config, run: seq<Event>): State
  {
    if run == [] then Start else Step(c, Exec(c, run[..|run| - 1]), run[|run| - 1])
  }
}
