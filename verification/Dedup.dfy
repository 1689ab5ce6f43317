/** Publisher-side deduplication: the ingestion marker behind PublishChained and PublishSeed
    (internal/bus/chain.go, seed.go, internal/locks/ingestion_marker.go, pipeline_guard.go) and
    the cache in front of it. Publishers share one Redis; every event is one Redis command or
    one step of a publisher on its own memory. URLs are taken already normalised. */
module Dedup {

  datatype Kind = Article | Category | Other

  datatype Config = Config(markerTTL: nat, categoryTTL: nat, cacheTTL: nat)

  predicate Positive(c: Config)
  {
    c.markerTTL > 0 && c.categoryTTL > 0 && c.cacheTTL > 0
  }

  /** The TTL policy of the pipeline guard. */
  function TTL(c: Config, kind: Kind): nat
  {
    if kind == Category then c.categoryTTL else c.markerTTL
  }

  /** How the SET NX went: answered, or failed with or without having run. */
  datatype Reply = Answered | Lost(applied: bool)

  /** Who asked: a goroutine, and for a chained URL whose cache it will go to. */
  datatype Asker = Chained(th: nat, pub: nat) | Seeding(th: nat)

  /** A cache entry: when it was added and, as history, the log entry of the refusal behind it. */
  datatype Memory = Memory(at: int, seen: nat)

  datatype Entry =
    | Admitted(url: string, at: int, ttl: nat, open: bool)          // open: let through on an error
    | Refused(url: string, at: int, asker: Asker, until: int)          // the marker was found held
    | Suppressed(url: string, at: int, pub: nat, memory: Memory)    // the cache said so
    | Released(url: string, at: int)

  /** A goroutine between two steps. */
  datatype Thread =
    | Asking(pub: nat, url: string, kind: Kind)        // not in the cache, SET NX next
    | Remembering(pub: nat, url: string, seen: nat)    // refused, cache Add next
    | Publishing(url: string, acquired: bool, mine: nat)   // seed admitted, Kafka next
    | Undoing(url: string, mine: nat)                  // seed publish failed, marker DEL next

  datatype State = State(
    now: int,
    markers: map<string, int>,              // expiry of each marker key
    caches: map<(nat, string), Memory>,     // by publisher and URL
    threads: map<nat, Thread>,
    log: seq<Entry>,                        // history
    owners: map<string, nat>)               // history: the log entry of the admission that set a marker

  datatype Event =
    | Tick(elapsed: nat)
    | ChainUrl(th: nat, pub: nat, url: string, kind: Kind)   // the cache lookup of one chained URL
    | ChainAsk(th: nat, reply: Reply)
    | ChainRemember(th: nat)
    | Forget(pub: nat, url: string)                          // eviction or expiry in the cache
    | SeedAsk(th: nat, url: string, kind: Kind, reply: Reply)
    | SeedPublish(th: nat, ok: bool)
    | SeedUndo(th: nat, applied: bool)
    | Release(url: string)                                   // end of a cycle, or an operator

  const Start := State(0, map[], map[], map[], [], map[])

  predicate Held(s: State, url: string)
  {
    url in s.markers && s.now < s.markers[url]
  }

  /** SET NX PX. */
  function SetMarker(s: State, url: string, ttl: nat): State
  {
    if Held(s, url) then s else s.(markers := s.markers[url := s.now + ttl], owners := s.owners[url := |s.log|])
  }

  function Delete(s: State, url: string): State
  {
    s.(markers := s.markers - {url}, log := s.log + [Released(url, s.now)])
  }

  function Note(s: State, e: Entry): State
  {
    s.(log := s.log + [e])
  }

  /** One CheckAndAcquire: an error lets the URL through. */
  function Ask(c: Config, s: State, url: string, kind: Kind, asker: Asker, reply: Reply): State
  {
    var ttl := TTL(c, kind);
    match reply
    case Lost(applied) => Note(if applied then SetMarker(s, url, ttl) else s, Admitted(url, s.now, ttl, true))
    case Answered =>
      if Held(s, url) then Note(s, Refused(url, s.now, asker, s.markers[url]))
      else Note(SetMarker(s, url, ttl), Admitted(url, s.now, ttl, false))
  }

  function Spawn(s: State, th: nat, thread: Thread): State
  {
    s.(threads := s.threads[th := thread])
  }

  function Finish(s: State, th: nat): State
  {
    s.(threads := s.threads - {th})
  }

  predicate Remembers(c: Config, s: State, pub: nat, url: string)
  {
    (pub, url) in s.caches && s.now - s.caches[(pub, url)].at < c.cacheTTL
  }

  function Step(c: Config, s: State, e: Event): State
  {
    match e
    case Tick(d) => s.(now := s.now + d)
    case ChainUrl(th, pub, url, kind) =>
      if th in s.threads then s
      else if kind != Category && Remembers(c, s, pub, url) then Note(s, Suppressed(url, s.now, pub, s.caches[(pub, url)]))
      else Spawn(s, th, Asking(pub, url, kind))
    case ChainAsk(th, reply) =>
      if th in s.threads && s.threads[th].Asking? then
        var Asking(pub, url, kind) := s.threads[th];
        var t := Ask(c, s, url, kind, Chained(th, pub), reply);
        if reply == Answered && Held(s, url) && kind != Category then Spawn(t, th, Remembering(pub, url, |s.log|))
        else Finish(t, th)
      else s
    case ChainRemember(th) =>
      if th in s.threads && s.threads[th].Remembering? then
        var Remembering(pub, url, seen) := s.threads[th];
        Finish(s.(caches := s.caches[(pub, url) := Memory(s.now, seen)]), th)
      else s
    case Forget(pub, url) => s.(caches := s.caches - {(pub, url)})
    case SeedAsk(th, url, kind, reply) =>
      if th in s.threads then s
      else
        var t := Ask(c, s, url, kind, Seeding(th), reply);
        if reply == Answered && Held(s, url) then t
        else Spawn(t, th, Publishing(url, reply == Answered, |s.log|))
    case SeedPublish(th, ok) =>
      if th in s.threads && s.threads[th].Publishing? then
        var Publishing(url, acquired, mine) := s.threads[th];
        if !ok && acquired then Spawn(s, th, Undoing(url, mine)) else Finish(s, th)
      else s
    case SeedUndo(th, applied) =>
      if th in s.threads && s.threads[th].Undoing? then
        var url := s.threads[th].url;
        Finish(if applied then Delete(s, url) else s, th)
      else s
    case Release(url) => Delete(s, url)
  }

  function From(c: Config, s: State, run: seq<Event>): State
  {
    if run == [] then s else Step(c, From(c, s, run[..|run| - 1]), run[|run| - 1])
  }

  function Exec(c: Config, run: seq<Event>): State
  {
    From(c, Start, run)
  }

  lemma FromOneMore(c: Config, s: State, run: seq<Event>, e: Event)
    ensures From(c, s, run + [e]) == Step(c, From(c, s, run), e)
  {
    assert (run + [e])[..|run|] == run;
  }

  lemma ExecFive(c: Config, a: Event, b: Event, d: Event, e: Event, f: Event)
    ensures Exec(c, [a] + [b] + [d]) == Step(c, Step(c, Step(c, Start, a), b), d)
    ensures Exec(c, [a] + [b] + [d] + [e] + [f]) == Step(c, Step(c, Exec(c, [a] + [b] + [d]), e), f)
  {
    FromOneMore(c, Start, [], a);
    assert [] + [a] == [a];
    FromOneMore(c, Start, [a], b);
    FromOneMore(c, Start, [a] + [b], d);
    FromOneMore(c, Start, [a] + [b] + [d], e);
    FromOneMore(c, Start, [a] + [b] + [d] + [e], f);
  }

  /** What one question to Redis does: a held marker refuses; otherwise, and on any error, the URL is
      admitted, and a SET that ran on a free key leaves the marker for the lifetime of the URL's kind. */
  lemma AskExactly(c: Config, s: State, url: string, kind: Kind, asker: Asker, reply: Reply)
    ensures var t, held := Ask(c, s, url, kind, asker, reply), url in s.markers && s.now < s.markers[url];
            var ttl := if kind == Category then c.categoryTTL else c.markerTTL;
            && t.log == s.log + [if reply == Answered && held then Refused(url, s.now, asker, s.markers[url])
                                 else Admitted(url, s.now, ttl, reply.Lost?)]
            && t.markers == (if held || reply == Lost(false) then s.markers else s.markers[url := s.now + ttl])
            && t.caches == s.caches && t.threads == s.threads && t.now == s.now
  {
  }

  /** A category URL is never looked up in the cache and never remembered there: it always asks Redis.
      Any other one is suppressed exactly while its publisher remembers it. */
  lemma CategoriesSkipTheCache(c: Config, s: State, th: nat, pub: nat, url: string, kind: Kind, reply: Reply)
    ensures th !in s.threads ==>
              var t := Step(c, s, ChainUrl(th, pub, url, kind));
              var known := (pub, url) in s.caches && s.now < s.caches[(pub, url)].at + c.cacheTTL;
              && (th !in t.threads <==> kind != Category && known)
              && (th in t.threads ==> t.threads == s.threads[th := Asking(pub, url, kind)] && t.log == s.log)
    ensures th in s.threads && s.threads[th] == Asking(pub, url, kind) ==>
              var t := Step(c, s, ChainAsk(th, reply));
              var held := url in s.markers && s.now < s.markers[url];
              && (th in t.threads <==> kind != Category && reply == Answered && held)
              && (th in t.threads ==> t.threads[th] == Remembering(pub, url, |s.log|))
              && t.caches == s.caches
  {
  }

  // ---- admissions are spaced by the marker's TTL

  predicate Admission(log: seq<Entry>, i: int, url: string)
  {
    0 <= i < |log| && log[i].Admitted? && log[i].url == url && !log[i].open
  }

  ghost predicate ReleasedBetween(log: seq<Entry>, i: int, j: int, url: string)
  {
    exists k :: 0 <= k < |log| && i < k < j && log[k].Released? && log[k].url == url
  }

  /** An admission nobody released still holds its marker for its whole TTL. */
  ghost predicate Guards(s: State, i: int, url: string)
  {
    Admission(s.log, i, url) && !ReleasedBetween(s.log, i, |s.log|, url) ==>
      s.now < s.log[i].at + s.log[i].ttl ==> url in s.markers && s.markers[url] >= s.log[i].at + s.log[i].ttl
  }

  ghost predicate Spaced(log: seq<Entry>, i: int, j: int, url: string)
  {
    Admission(log, i, url) && Admission(log, j, url) && i < j && !ReleasedBetween(log, i, j, url) ==>
      log[j].at >= log[i].at + log[i].ttl
  }

  ghost predicate DedupInv(s: State, url: string)
  {
    (forall i :: Guards(s, i, url)) && (forall i, j :: Spaced(s.log, i, j, url))
  }

  ghost predicate Grows(s: State, t: State)
  {
    s.log <= t.log && |t.log| <= |s.log| + 1 && s.now <= t.now
  }

  /** What a step can do to one URL's marker: nothing, delete it, or set it where none is held. */
  ghost predicate MarkerShape(s: State, t: State, url: string)
  {
    var n := |s.log|;
    && Grows(s, t)
    && (|| ((url in t.markers <==> url in s.markers)
            && (url in s.markers ==> t.markers[url] == s.markers[url])
            && (url in s.owners ==> url in t.owners && t.owners[url] == s.owners[url])
            && !Admission(t.log, n, url) && !(|t.log| > n && t.log[n].Released? && t.log[n].url == url))
        || (url !in t.markers && t.log == s.log + [Released(url, s.now)] && t.now == s.now)
        || (!Held(s, url) && |t.log| == n + 1 && t.log[n].Admitted? && t.log[n].url == url && t.log[n].at == s.now == t.now
            && url in t.markers && t.markers[url] == s.now + t.log[n].ttl
            && url in t.owners && t.owners[url] == n))
  }

  lemma AskMarkers(c: Config, s: State, asked: string, kind: Kind, asker: Asker, reply: Reply, url: string)
    ensures MarkerShape(s, Ask(c, s, asked, kind, asker, reply), url)
  {
  }

  lemma DeleteMarkers(s: State, deleted: string, url: string)
    ensures MarkerShape(s, Delete(s, deleted), url)
  {
  }

  /** Goroutines and caches do not matter to a marker. */
  lemma SameMarkers(s: State, t: State, u: State, url: string)
    requires MarkerShape(s, t, url)
    requires u.now == t.now && u.markers == t.markers && u.owners == t.owners && u.log == t.log
    ensures MarkerShape(s, u, url)
  {
  }

  lemma StepMarkers(c: Config, s: State, e: Event, url: string)
    ensures MarkerShape(s, Step(c, s, e), url)
  {
    var t := Step(c, s, e);
    match e
    case ChainAsk(th, reply) =>
      if th in s.threads && s.threads[th].Asking? {
        var Asking(pub, asked, kind) := s.threads[th];
        AskMarkers(c, s, asked, kind, Chained(th, pub), reply, url);
        SameMarkers(s, Ask(c, s, asked, kind, Chained(th, pub), reply), t, url);
      }
    case SeedAsk(th, asked, kind, reply) =>
      if th !in s.threads {
        AskMarkers(c, s, asked, kind, Seeding(th), reply, url);
        SameMarkers(s, Ask(c, s, asked, kind, Seeding(th), reply), t, url);
      }
    case SeedUndo(th, applied) =>
      if th in s.threads && s.threads[th].Undoing? && applied {
        DeleteMarkers(s, s.threads[th].url, url);
        SameMarkers(s, Delete(s, s.threads[th].url), t, url);
      }
    case Release(deleted) => DeleteMarkers(s, deleted, url);
    case _ => OtherSteps(c, s, e, url);
  }

  lemma OtherSteps(c: Config, s: State, e: Event, url: string)
    requires !e.ChainAsk? && !e.SeedAsk? && !e.SeedUndo? && !e.Release?
    ensures MarkerShape(s, Step(c, s, e), url)
  {
  }

  lemma SpacedStays(s: State, t: State, url: string, i: int, j: int)
    requires MarkerShape(s, t, url) && DedupInv(s, url)
    ensures Spaced(t.log, i, j, url)
  {
    if Admission(t.log, i, url) && Admission(t.log, j, url) && i < j && !ReleasedBetween(t.log, i, j, url) {
      assert Admission(s.log, i, url);
      assert Guards(s, i, url);
      assert Spaced(s.log, i, j, url);
      assert forall k :: 0 <= k < |s.log| ==> t.log[k] == s.log[k];
    }
  }

  lemma GuardsStay(s: State, t: State, url: string, i: int)
    requires MarkerShape(s, t, url) && DedupInv(s, url)
    ensures Guards(t, i, url)
  {
    if Admission(t.log, i, url) && i < |s.log| && !ReleasedBetween(t.log, i, |t.log|, url)
       && t.now < t.log[i].at + t.log[i].ttl {
      assert Admission(s.log, i, url) && Guards(s, i, url);
      assert forall k :: 0 <= k < |s.log| ==> t.log[k] == s.log[k];
    }
  }

  lemma DedupStep(c: Config, s: State, e: Event, url: string)
    requires DedupInv(s, url)
    ensures DedupInv(Step(c, s, e), url)
  {
    var t := Step(c, s, e);
    StepMarkers(c, s, e, url);
    forall i ensures Guards(t, i, url) { GuardsStay(s, t, url, i); }
    forall i, j ensures Spaced(t.log, i, j, url) { SpacedStays(s, t, url, i, j); }
  }

  lemma {:induction false} AlwaysDedup(c: Config, run: seq<Event>, url: string)
    requires Positive(c)
    ensures DedupInv(Exec(c, run), url)
  {
    if run != [] {
      AlwaysDedup(c, run[..|run| - 1], url);
      DedupStep(c, Exec(c, run[..|run| - 1]), run[|run| - 1], url);
    }
  }

  /** In every interleaving of chained and seed publishes by any number of publishers: of two
      admissions of one URL, the later comes at least the earlier one's marker TTL after it,
      unless the marker was released in between or one of them was let through on an error. */
  lemma AdmissionsAreSpaced(c: Config, run: seq<Event>, url: string, i: nat, j: nat)
    requires Positive(c) && i < j
    requires Admission(Exec(c, run).log, i, url) && Admission(Exec(c, run).log, j, url)
    requires !ReleasedBetween(Exec(c, run).log, i, j, url)
    ensures Exec(c, run).log[j].at >= Exec(c, run).log[i].at + Exec(c, run).log[i].ttl
  {
    AlwaysDedup(c, run, url);
    assert Spaced(Exec(c, run).log, i, j, url);
  }

  // ---- what the cache suppresses

  /** The log entry is a chained goroutine's finding the marker held, on behalf of this publisher,
      no later than the given time. */
  predicate SeenHeld(log: seq<Entry>, seen: nat, pub: nat, url: string, until: int)
  {
    seen < |log| && log[seen].Refused? && log[seen].url == url && log[seen].asker.Chained? && log[seen].asker.pub == pub
    && log[seen].at < log[seen].until && log[seen].at <= until
  }

  predicate EntryJustified(s: State, k: (nat, string))
    requires k in s.caches
  {
    s.caches[k].at <= s.now && SeenHeld(s.log, s.caches[k].seen, k.0, k.1, s.caches[k].at)
  }

  /** A goroutine about to remember is the one that found the marker held. */
  predicate ThreadJustified(s: State, th: nat)
    requires th in s.threads
  {
    s.threads[th].Remembering? ==>
      var Remembering(pub, url, seen) := s.threads[th];
      SeenHeld(s.log, seen, pub, url, s.now) && s.log[seen].asker.th == th
  }

  predicate LogJustified(c: Config, log: seq<Entry>, k: nat)
    requires k < |log|
  {
    log[k].Suppressed? ==>
      var Suppressed(url, at, pub, memory) := log[k];
      memory.at <= at < memory.at + c.cacheTTL && memory.seen < k && SeenHeld(log, memory.seen, pub, url, memory.at)
  }

  ghost predicate CacheInv(c: Config, s: State)
  {
    && (forall k :: k in s.caches ==> EntryJustified(s, k))
    && (forall th :: th in s.threads ==> ThreadJustified(s, th))
    && (forall k :: 0 <= k < |s.log| ==> LogJustified(c, s.log, k))
  }

  /** What a step can leave in a goroutine's place: what was there, or something it has just logged. */
  ghost predicate ThreadShape(s: State, t: State, th: nat)
  {
    var n := |s.log|;
    && Grows(s, t)
    && (th in t.threads ==>
          var w := t.threads[th];
          || (th in s.threads && s.threads[th] == w)
          || w.Asking?
          || (w.Remembering? && |t.log| == n + 1 && w.seen == n
              && t.log[n].Refused? && t.log[n].url == w.url && t.log[n].asker == Chained(th, w.pub)
              && t.log[n].at == s.now < t.log[n].until)
          || (w.Publishing? && (w.acquired ==> w.mine == n && Admission(t.log, n, w.url)))
          || (w.Undoing? && th in s.threads && s.threads[th] == Publishing(w.url, true, w.mine)))
  }

  lemma StepThreads(c: Config, s: State, e: Event, th: nat)
    ensures ThreadShape(s, Step(c, s, e), th)
  {
    if e.ChainAsk? { AskThreads(c, s, e, th); } else if e.SeedAsk? { SeedThreads(c, s, e, th); } else { OtherThreads(c, s, e, th); }
  }

  lemma AskThreads(c: Config, s: State, e: Event, th: nat)
    requires e.ChainAsk?
    ensures ThreadShape(s, Step(c, s, e), th)
  {
  }

  lemma SeedThreads(c: Config, s: State, e: Event, th: nat)
    requires e.SeedAsk?
    ensures ThreadShape(s, Step(c, s, e), th)
  {
  }

  lemma OtherThreads(c: Config, s: State, e: Event, th: nat)
    requires !e.ChainAsk? && !e.SeedAsk?
    ensures ThreadShape(s, Step(c, s, e), th)
  {
  }

  lemma LogGrows(c: Config, s: State, e: Event)
    ensures Grows(s, Step(c, s, e))
    ensures |Step(c, s, e).log| > |s.log| && Step(c, s, e).log[|s.log|].Suppressed? ==>
              e.ChainUrl? && Remembers(c, s, e.pub, e.url)
              && Step(c, s, e).log[|s.log|] == Suppressed(e.url, s.now, e.pub, s.caches[(e.pub, e.url)])
  {
  }

  lemma CacheEntryStep(c: Config, s: State, e: Event, k: (nat, string))
    requires CacheInv(c, s) && k in Step(c, s, e).caches
    ensures EntryJustified(Step(c, s, e), k)
  {
    LogGrows(c, s, e);
    if k in s.caches { assert EntryJustified(s, k); }
    if e.ChainRemember? && e.th in s.threads { assert ThreadJustified(s, e.th); }
  }

  lemma ThreadStep(c: Config, s: State, e: Event, th: nat)
    requires CacheInv(c, s) && th in Step(c, s, e).threads
    ensures ThreadJustified(Step(c, s, e), th)
  {
    StepThreads(c, s, e, th);
    ThreadStays(s, Step(c, s, e), th);
  }

  lemma ThreadStays(s: State, t: State, th: nat)
    requires ThreadShape(s, t, th) && th in t.threads && (th in s.threads ==> ThreadJustified(s, th))
    ensures ThreadJustified(t, th)
  {
  }

  lemma LogStep(c: Config, s: State, e: Event, k: nat)
    requires CacheInv(c, s) && k < |Step(c, s, e).log|
    ensures LogJustified(c, Step(c, s, e).log, k)
  {
    LogGrows(c, s, e);
    var t := Step(c, s, e);
    if k < |s.log| {
      assert LogJustified(c, s.log, k);
      JustifiedStays(c, s.log, t.log, k);
    } else if t.log[k].Suppressed? {
      assert EntryJustified(s, (e.pub, e.url));
    }
  }

  lemma JustifiedStays(c: Config, log: seq<Entry>, log': seq<Entry>, k: nat)
    requires log <= log' && k < |log| && LogJustified(c, log, k)
    ensures LogJustified(c, log', k)
  {
  }

  lemma {:induction false} AlwaysCacheInv(c: Config, run: seq<Event>)
    ensures CacheInv(c, Exec(c, run))
  {
    if run != [] {
      AlwaysCacheInv(c, run[..|run| - 1]);
      var s, e := Exec(c, run[..|run| - 1]), run[|run| - 1];
      var t := Step(c, s, e);
      forall k | k in t.caches ensures EntryJustified(t, k) { CacheEntryStep(c, s, e, k); }
      forall th | th in t.threads ensures ThreadJustified(t, th) { ThreadStep(c, s, e, th); }
      forall k | 0 <= k < |t.log| ensures LogJustified(c, t.log, k) { LogStep(c, s, e, k); }
    }
  }

  /** Every suppression goes back to one refusal: a goroutine of the same publisher found the URL's
      marker held, remembered it some time later, and the suppression came less than the cache TTL
      after that. So the marker was held at most the remembering delay plus the cache TTL ago. */
  lemma SuppressionIsJustified(c: Config, run: seq<Event>, k: nat)
    requires k < |Exec(c, run).log| && Exec(c, run).log[k].Suppressed?
    ensures var log := Exec(c, run).log;
            var Suppressed(url, at, pub, memory) := log[k];
            && memory.seen < k && log[memory.seen].Refused?
            && var refusal := log[memory.seen];
            && refusal.url == url && refusal.asker.Chained? && refusal.asker.pub == pub
            && refusal.at < refusal.until
            && refusal.at <= memory.at <= at < memory.at + c.cacheTTL
            && at - refusal.at < (memory.at - refusal.at) + c.cacheTTL
  {
    AlwaysCacheInv(c, run);
    assert LogJustified(c, Exec(c, run).log, k);
  }

  /** The refusal behind a cache entry is that of the goroutine that adds it. */
  lemma RememberedByItsFinder(c: Config, run: seq<Event>, th: nat)
    requires th in Exec(c, run).threads && Exec(c, run).threads[th].Remembering?
    ensures var s := Exec(c, run);
            var Remembering(pub, url, seen) := s.threads[th];
            seen < |s.log| && s.log[seen].Refused? && s.log[seen].url == url && s.log[seen].asker == Chained(th, pub)
  {
    AlwaysCacheInv(c, run);
    assert ThreadJustified(Exec(c, run), th);
  }

  // ---- when a suppression falls under a held marker

  /** The event deletes the URL's marker. */
  predicate Deletes(s: State, e: Event, url: string)
  {
    || (e.Release? && e.url == url)
    || (e.SeedUndo? && e.applied && e.th in s.threads && s.threads[e.th].Undoing? && s.threads[e.th].url == url)
  }

  ghost predicate NoneDeletes(c: Config, s: State, more: seq<Event>, url: string)
  {
    forall i :: 0 <= i < |more| ==> !Deletes(From(c, s, more[..i]), more[i], url)
  }

  /** The event is suppressed by what publisher pub remembered of the URL at time since. */
  predicate Suppresses(c: Config, s: State, e: Event, pub: nat, url: string, since: int)
  {
    e.ChainUrl? && e.pub == pub && e.url == url && e.kind != Category && e.th !in s.threads
    && Remembers(c, s, pub, url) && s.caches[(pub, url)].at == since
  }

  ghost predicate Covered(c: Config, s: State, more: seq<Event>, pub: nat, url: string, since: int)
  {
    forall i :: 0 <= i < |more| && Suppresses(c, From(c, s, more[..i]), more[i], pub, url, since) ==>
      Held(From(c, s, more[..i]), url)
  }

  /** Without a deletion a marker's expiry never moves back. */
  lemma {:induction false} MarkerStays(c: Config, s: State, more: seq<Event>, url: string)
    requires NoneDeletes(c, s, more, url) && url in s.markers
    ensures var t := From(c, s, more); url in t.markers && t.markers[url] >= s.markers[url] && t.now >= s.now
  {
    if more != [] {
      var n := |more| - 1;
      forall i | 0 <= i < n ensures !Deletes(From(c, s, more[..n][..i]), more[..n][i], url) {
        assert more[..n][..i] == more[..i];
      }
      MarkerStays(c, s, more[..n], url);
      assert !Deletes(From(c, s, more[..n]), more[n], url);
      MarkerStep(c, From(c, s, more[..n]), more[n], url);
    }
  }

  lemma MarkerStep(c: Config, s: State, e: Event, url: string)
    requires !Deletes(s, e, url) && url in s.markers
    ensures var t := Step(c, s, e); url in t.markers && t.markers[url] >= s.markers[url] && t.now >= s.now
  {
    StepMarkers(c, s, e, url);
    NotDeleted(c, s, e, url);
  }

  lemma NotDeleted(c: Config, s: State, e: Event, url: string)
    requires !Deletes(s, e, url) && url in s.markers
    ensures url in Step(c, s, e).markers
  {
  }

  /** The exact condition for the cache never to outlive the marker: as long as nobody deletes the
      marker, every suppression by what a goroutine remembers now falls under a held marker if and
      only if the marker has the whole cache TTL still to run. */
  lemma CoveredExactly(c: Config, run: seq<Event>, th: nat)
    requires c.cacheTTL > 0 && th in Exec(c, run).threads && Exec(c, run).threads[th].Remembering?
    ensures var s := Exec(c, run);
            var Remembering(pub, url, _) := s.threads[th];
            var t := Step(c, s, ChainRemember(th));
            (forall more :: NoneDeletes(c, t, more, url) ==> Covered(c, t, more, pub, url, s.now))
            <==> url in s.markers && s.markers[url] >= s.now + c.cacheTTL
  {
    var s := Exec(c, run);
    var Remembering(pub, url, _) := s.threads[th];
    var t := Step(c, s, ChainRemember(th));
    if url in s.markers && s.markers[url] >= s.now + c.cacheTTL {
      forall more | NoneDeletes(c, t, more, url) ensures Covered(c, t, more, pub, url, s.now) {
        CoveredByMarker(c, t, more, pub, url, s.now);
      }
    } else {
      var late := if url in s.markers && s.markers[url] > s.now then s.markers[url] - s.now else 0;
      Uncovered(c, t, th, pub, url, late);
    }
  }

  lemma CoveredByMarker(c: Config, t: State, more: seq<Event>, pub: nat, url: string, since: int)
    requires url in t.markers && t.markers[url] >= since + c.cacheTTL && NoneDeletes(c, t, more, url)
    ensures Covered(c, t, more, pub, url, since)
  {
    forall i | 0 <= i < |more| && Suppresses(c, From(c, t, more[..i]), more[i], pub, url, since)
      ensures Held(From(c, t, more[..i]), url)
    {
      forall j | 0 <= j < i ensures !Deletes(From(c, t, more[..i][..j]), more[..i][j], url) {
        assert more[..i][..j] == more[..j];
      }
      MarkerStays(c, t, more[..i], url);
    }
  }

  /** Wait until the marker has expired and look the URL up again. */
  lemma Uncovered(c: Config, t: State, th: nat, pub: nat, url: string, late: nat)
    requires th !in t.threads && (pub, url) in t.caches && t.caches[(pub, url)].at == t.now && late < c.cacheTTL
    requires url in t.markers ==> t.markers[url] <= t.now + late
    ensures exists more :: NoneDeletes(c, t, more, url) && !Covered(c, t, more, pub, url, t.now)
  {
    var more := [Tick(late), ChainUrl(th, pub, url, Article)];
    assert more[..0] == [] && more[..1] == [Tick(late)];
    FromOneMore(c, t, [], Tick(late));
    assert [] + [Tick(late)] == [Tick(late)];
    var u := From(c, t, more[..1]);
    assert u == t.(now := t.now + late);
    assert Suppresses(c, u, more[1], pub, url, t.now) && !Held(u, url);
    assert NoneDeletes(c, t, more, url);
  }

  /** It fails, for every URL: one publisher admits the URL, another finds the marker held just
      before it expires, remembers that, and suppresses the URL after the expiry. */
  lemma CacheCanOutliveMarker(c: Config, url: string)
    requires c.markerTTL > 0 && c.cacheTTL > 1
    ensures var run := [SeedAsk(0, url, Article, Answered)] + [Tick(c.markerTTL - 1)] + [ChainUrl(1, 1, url, Article)]
                       + [ChainAsk(1, Answered)] + [ChainRemember(1)] + [Tick(1)];
            var s, t := Exec(c, run), Exec(c, run + [ChainUrl(1, 1, url, Article)]);
            && !Held(s, url)
            && t.log == s.log + [Suppressed(url, c.markerTTL, 1, Memory(c.markerTTL - 1, 1))]
  {
    HeldTillLast(c, url);
    RefusedAtTheEnd(c, [SeedAsk(0, url, Article, Answered)] + [Tick(c.markerTTL - 1)] + [ChainUrl(1, 1, url, Article)], url);
  }

  lemma HeldTillLast(c: Config, url: string)
    requires c.markerTTL > 0
    ensures var s := Exec(c, [SeedAsk(0, url, Article, Answered)] + [Tick(c.markerTTL - 1)] + [ChainUrl(1, 1, url, Article)]);
            && s.now == c.markerTTL - 1 && s.markers == map[url := c.markerTTL] && |s.log| == 1
            && 1 in s.threads && s.threads[1] == Asking(1, url, Article) && s.caches == map[]
  {
    ExecFive(c, SeedAsk(0, url, Article, Answered), Tick(c.markerTTL - 1), ChainUrl(1, 1, url, Article), Tick(0), Tick(0));
  }

  lemma RefusedAtTheEnd(c: Config, run: seq<Event>, url: string)
    requires var s := Exec(c, run);
             && c.cacheTTL > 1 && s.markers == map[url := s.now + 1] && |s.log| == 1 && s.caches == map[]
             && 1 in s.threads && s.threads[1] == Asking(1, url, Article)
    ensures var s := Exec(c, run);
            var t := Exec(c, run + [ChainAsk(1, Answered)] + [ChainRemember(1)] + [Tick(1)]);
            && !Held(t, url)
            && Exec(c, run + [ChainAsk(1, Answered)] + [ChainRemember(1)] + [Tick(1)] + [ChainUrl(1, 1, url, Article)]).log
               == t.log + [Suppressed(url, s.now + 1, 1, Memory(s.now, 1))]
  {
    FromOneMore(c, Start, run, ChainAsk(1, Answered));
    FromOneMore(c, Start, run + [ChainAsk(1, Answered)], ChainRemember(1));
    FromOneMore(c, Start, run + [ChainAsk(1, Answered)] + [ChainRemember(1)], Tick(1));
    FromOneMore(c, Start, run + [ChainAsk(1, Answered)] + [ChainRemember(1)] + [Tick(1)], ChainUrl(1, 1, url, Article));
    var u := Step(c, Exec(c, run), ChainAsk(1, Answered));
    assert u.threads[1] == Remembering(1, url, 1);
    assert Step(c, u, ChainRemember(1)).caches == map[(1, url) := Memory(u.now, 1)];
  }

  // ---- whose marker a failed seed publish takes back

  /** The owner of a marker set it, and nobody deleted it since. */
  ghost predicate OwnerInv(s: State, url: string)
  {
    url in s.markers ==>
      && url in s.owners && s.owners[url] < |s.log|
      && s.log[s.owners[url]].Admitted? && s.log[s.owners[url]].url == url
      && s.markers[url] == s.log[s.owners[url]].at + s.log[s.owners[url]].ttl
      && !ReleasedBetween(s.log, s.owners[url], |s.log|, url)
  }

  predicate UndoJustified(s: State, th: nat, url: string)
    requires th in s.threads
  {
    var t := s.threads[th];
    ((t.Publishing? && t.acquired) || t.Undoing?) && t.url == url ==> Admission(s.log, t.mine, url)
  }

  lemma OwnerStays(s: State, t: State, url: string)
    requires MarkerShape(s, t, url) && OwnerInv(s, url)
    ensures OwnerInv(t, url)
  {
    if url in t.markers && url in s.markers && t.owners[url] == s.owners[url] {
      assert forall k :: 0 <= k < |s.log| ==> t.log[k] == s.log[k];
    }
  }

  lemma UndoStays(s: State, t: State, th: nat, url: string)
    requires ThreadShape(s, t, th) && th in t.threads && (th in s.threads ==> UndoJustified(s, th, url))
    ensures UndoJustified(t, th, url)
  {
  }

  lemma {:induction false} AlwaysOwned(c: Config, run: seq<Event>, url: string)
    ensures OwnerInv(Exec(c, run), url)
    ensures forall th :: th in Exec(c, run).threads ==> UndoJustified(Exec(c, run), th, url)
  {
    if run != [] {
      AlwaysOwned(c, run[..|run| - 1], url);
      var s, e := Exec(c, run[..|run| - 1]), run[|run| - 1];
      var t := Step(c, s, e);
      StepMarkers(c, s, e, url);
      OwnerStays(s, t, url);
      forall th | th in t.threads ensures UndoJustified(t, th, url) {
        StepThreads(c, s, e, th);
        UndoStays(s, t, th, url);
      }
    }
  }

  /** The undo of a failed seed publish deletes whatever marker is there. While some marker is held,
      it is the undoing goroutine's own if and only if that one has not expired and was not released
      meanwhile; otherwise the undo takes back another publisher's. */
  lemma UndoTakesOwnExactly(c: Config, run: seq<Event>, th: nat)
    requires Positive(c)
    requires var s := Exec(c, run); th in s.threads && s.threads[th].Undoing? && Held(s, s.threads[th].url)
    ensures var s := Exec(c, run);
            var Undoing(url, mine) := s.threads[th];
            && url in s.owners && Admission(s.log, mine, url)
            && (s.owners[url] == mine <==>
                  s.now < s.log[mine].at + s.log[mine].ttl && !ReleasedBetween(s.log, mine, |s.log|, url))
  {
    var s := Exec(c, run);
    var Undoing(url, mine) := s.threads[th];
    AlwaysOwned(c, run, url);
    AlwaysDedup(c, run, url);
    assert UndoJustified(s, th, url);
    var o := s.owners[url];
    if s.now < s.log[mine].at + s.log[mine].ttl && !ReleasedBetween(s.log, mine, |s.log|, url) && o != mine {
      OneGuardAtATime(c, run, url, mine, o);
    }
  }

  /** A marker set while an earlier admission's still stands would contradict SET NX. */
  lemma OneGuardAtATime(c: Config, run: seq<Event>, url: string, mine: nat, o: nat)
    requires Positive(c)
    requires var s := Exec(c, run);
             && Admission(s.log, mine, url) && s.now < s.log[mine].at + s.log[mine].ttl
             && !ReleasedBetween(s.log, mine, |s.log|, url)
             && url in s.markers && url in s.owners && s.owners[url] == o
    ensures o == mine
  {
    AlwaysOwnerOfGuard(c, run, url, mine);
  }

  /** An unexpired, unreleased admission owns its marker. */
  ghost predicate OwnsWhileGuarding(s: State, i: int, url: string)
  {
    Admission(s.log, i, url) && !ReleasedBetween(s.log, i, |s.log|, url) && s.now < s.log[i].at + s.log[i].ttl ==>
      url in s.markers && url in s.owners && s.owners[url] == i && s.markers[url] == s.log[i].at + s.log[i].ttl
  }

  lemma GuardStays(s: State, t: State, url: string, i: int)
    requires MarkerShape(s, t, url) && OwnsWhileGuarding(s, i, url)
    ensures OwnsWhileGuarding(t, i, url)
  {
    if Admission(t.log, i, url) && i < |s.log| && !ReleasedBetween(t.log, i, |t.log|, url)
       && t.now < t.log[i].at + t.log[i].ttl {
      assert Admission(s.log, i, url);
      assert forall k :: 0 <= k < |s.log| ==> t.log[k] == s.log[k];
      assert !ReleasedBetween(s.log, i, |s.log|, url);
    }
  }

  lemma {:induction false} AlwaysOwnerOfGuard(c: Config, run: seq<Event>, url: string, i: nat)
    ensures OwnsWhileGuarding(Exec(c, run), i, url)
  {
    if run != [] {
      AlwaysOwnerOfGuard(c, run[..|run| - 1], url, i);
      StepMarkers(c, Exec(c, run[..|run| - 1]), run[|run| - 1], url);
      GuardStays(Exec(c, run[..|run| - 1]), Exec(c, run), url, i);
    }
  }

  /** It happens: a slow seed publish fails after its marker expired and deletes the marker that
      another publisher has set since, so a third is let through at once. */
  lemma LateUndoTakesAnothers(c: Config, url: string)
    requires Positive(c)
    ensures var run := [SeedAsk(0, url, Article, Answered)] + [Tick(c.markerTTL)] + [SeedAsk(1, url, Article, Answered)]
                       + [SeedPublish(0, false)] + [SeedUndo(0, true)];
            var s, t := Exec(c, run), Exec(c, run + [SeedAsk(2, url, Article, Answered)]);
            && url !in s.markers
            && t.log == [Admitted(url, 0, c.markerTTL, false), Admitted(url, c.markerTTL, c.markerTTL, false),
                         Released(url, c.markerTTL), Admitted(url, c.markerTTL, c.markerTTL, false)]
  {
    var a, b, d := SeedAsk(0, url, Article, Answered), Tick(c.markerTTL), SeedAsk(1, url, Article, Answered);
    ExecFive(c, a, b, d, SeedPublish(0, false), SeedUndo(0, true));
    FromOneMore(c, Start, [a] + [b] + [d] + [SeedPublish(0, false)] + [SeedUndo(0, true)], SeedAsk(2, url, Article, Answered));
    TwoSeeds(c, url);
    UndoneLate(c, Exec(c, [a] + [b] + [d]), url);
  }

  lemma TwoSeeds(c: Config, url: string)
    requires Positive(c)
    ensures var s := Step(c, Step(c, Step(c, Start, SeedAsk(0, url, Article, Answered)), Tick(c.markerTTL)),
                          SeedAsk(1, url, Article, Answered));
            && s.now == c.markerTTL && s.markers == map[url := 2 * c.markerTTL]
            && s.threads == map[0 := Publishing(url, true, 0), 1 := Publishing(url, true, 1)]
            && s.log == [Admitted(url, 0, c.markerTTL, false), Admitted(url, c.markerTTL, c.markerTTL, false)]
  {
  }

  lemma UndoneLate(c: Config, s: State, url: string)
    requires s.threads == map[0 := Publishing(url, true, 0), 1 := Publishing(url, true, 1)]
    ensures var t := Step(c, Step(c, s, SeedPublish(0, false)), SeedUndo(0, true));
            && url !in t.markers && t.log == s.log + [Released(url, s.now)] && t.now == s.now
            && Step(c, t, SeedAsk(2, url, Article, Answered)).log == t.log + [Admitted(url, s.now, c.markerTTL, false)]
  {
  }
}
