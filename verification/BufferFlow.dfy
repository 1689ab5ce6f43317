/** Runs of the job buffer: producers enqueue while any number of drainers pop and settle
    batches, every Redis command a step of its own. */
module BufferFlow {
  import opened Strings
  import opened JobBuffer
  import opened BufferDrainer

  /** The queue, the batches popped and not yet settled, and the histories. */
  datatype State = State(
    queue: seq<string>,
    hands: seq<seq<string>>,
    enqueued: seq<string>,      // every payload of a producer that Redis took
    published: seq<Message>,
    retried: seq<Message>,
    gone: seq<string>)          // trimmed on overflow, or lost in a pop or re-enqueue

  datatype Event =
    | Enqueue(items: seq<string>, fate: Fate)
    | Pop(n: nat)
    | PopLost(n: nat)                          // the RPOP ran, its reply never came
    | Settle(hand: nat, kafka: Kafka, fate: Fate)

  const Start := State([], [], [], [], [], [])

  /** What an append pushes out at the old end. */
  function Overflow<T>(q: seq<T>, items: seq<T>, max: int): seq<T>
  {
    var all := q + items;
    if max <= 0 || |all| <= max then [] else all[..|all| - max]
  }

  function Dropped(q: seq<string>, items: seq<string>, max: int, fate: Fate): seq<string>
  {
    match fate
    case Answered => Overflow(q, items, max)
    case Lost(ran) => if ran == 0 then items else Overflow(q, items, if ran == 1 then 0 else max)
  }

  function Without<T>(s: seq<T>, i: nat): seq<T>
    requires i < |s|
  {
    s[..i] + s[i + 1..]
  }

  /** The payloads gone once a batch has come back. */
  function GoneWith(c: Config, s: State, back: seq<string>, fate: Fate): seq<string>
  {
    s.gone + if back == [] then [] else Dropped(s.queue, back, c.maxLen, fate)
  }

  /** Batch i has come out as o. */
  function AfterSettle(c: Config, s: State, i: nat, o: Outcome, fate: Fate): State
    requires i < |s.hands|
  {
    State(Returned(c, s.queue, o.back, fate), Without(s.hands, i), s.enqueued,
          s.published + o.published, s.retried + o.retried, GoneWith(c, s, o.back, fate))
  }

  function Step(c: Config, s: State, e: Event): State
  {
    match e
    case Enqueue(items, fate) =>
      if items == [] || fate == Lost(0) then s
      else s.(queue := Enqueued(s.queue, items, c.maxLen, fate), enqueued := s.enqueued + items,
              gone := s.gone + Dropped(s.queue, items, c.maxLen, fate))
    case Pop(n) =>
      var k := Count(n, |s.queue|);
      s.(queue := s.queue[k..], hands := s.hands + [s.queue[..k]])
    case PopLost(n) =>
      var k := Count(n, |s.queue|);
      s.(queue := s.queue[k..], gone := s.gone + s.queue[..k])
    case Settle(i, kafka, fate) =>
      if i < |s.hands| then
        AfterSettle(c, s, i, Settled(c, s.hands[i], kafka), fate)
      else s
  }

  function Exec(c: Config, run: seq<Event>): State
  {
    if run == [] then Start else Step(c, Exec(c, run[..|run| - 1]), run[|run| - 1])
  }

  function Concat<T>(hands: seq<seq<T>>): seq<T>
  {
    if hands == [] then [] else Concat(hands[..|hands| - 1]) + hands[|hands| - 1]
  }

  ghost predicate AllDecode(c: Config, ps: seq<string>)
  {
    forall p :: p in ps ==> c.decode(p).Some?
  }

  /** How many payloads of ps decode to m. */
  function Held(c: Config, ps: seq<string>, m: Message): nat
  {
    if ps == [] then 0
    else
      var n := |ps| - 1;
      Held(c, ps[..n], m) + if c.decode(ps[n]) == Some(m) then 1 else 0
  }

  /** How often m stands in msgs. */
  function Times(msgs: seq<Message>, m: Message): nat
  {
    if msgs == [] then 0
    else
      var n := |msgs| - 1;
      Times(msgs[..n], m) + if msgs[n] == m then 1 else 0
  }

  lemma {:induction false} TimesCounts(msgs: seq<Message>, m: Message)
    ensures Times(msgs, m) == multiset(msgs)[m]
  {
    if msgs != [] {
      var n := |msgs| - 1;
      TimesCounts(msgs[..n], m);
      assert msgs == msgs[..n] + [msgs[n]];
    }
  }

  lemma {:induction false} HeldCounts(c: Config, ps: seq<string>, m: Message)
    ensures Held(c, ps, m) == Times(Decoded(c, ps), m)
  {
    if ps != [] {
      var n := |ps| - 1;
      HeldCounts(c, ps[..n], m);
      var before := Decoded(c, ps[..n]);
      if c.decode(ps[n]).Some? {
        assert (before + [c.decode(ps[n]).value])[..|before|] == before;
      } else {
        assert before + [] == before;
      }
    }
  }

  lemma {:induction false} HeldAppends(c: Config, a: seq<string>, b: seq<string>, m: Message)
    ensures Held(c, a + b, m) == Held(c, a, m) + Held(c, b, m)
  {
    if b == [] {
      assert a + b == a;
    } else {
      var n := |b| - 1;
      HeldAppends(c, a, b[..n], m);
      assert (a + b)[..|a + b| - 1] == a + b[..n];
    }
  }

  lemma {:induction false} TimesAppends(a: seq<Message>, b: seq<Message>, m: Message)
    ensures Times(a + b, m) == Times(a, m) + Times(b, m)
  {
    if b == [] {
      assert a + b == a;
    } else {
      var n := |b| - 1;
      TimesAppends(a, b[..n], m);
      assert (a + b)[..|a + b| - 1] == a + b[..n];
    }
  }

  lemma HeldSplits(c: Config, s: seq<string>, k: nat, m: Message)
    requires k <= |s|
    ensures Held(c, s, m) == Held(c, s[..k], m) + Held(c, s[k..], m)
  {
    HeldAppends(c, s[..k], s[k..], m);
    assert s[..k] + s[k..] == s;
  }

  lemma AppendSplits(c: Config, q: seq<string>, items: seq<string>, max: int, m: Message)
    ensures Held(c, q, m) + Held(c, items, m) == Held(c, Append(q, items, max), m) + Held(c, Overflow(q, items, max), m)
  {
    HeldAppends(c, q, items, m);
    var all := q + items;
    if max > 0 && |all| > max {
      var k := |all| - max;
      HeldSplits(c, all, k, m);
      assert Append(q, items, max) == all[k..];
      assert Overflow(q, items, max) == all[..k];
    }
  }

  /** An enqueue, whatever becomes of it, leaves every payload in the queue or among the dropped. */
  lemma EnqueuedSplits(c: Config, q: seq<string>, items: seq<string>, max: int, fate: Fate, m: Message)
    ensures Held(c, q, m) + Held(c, items, m) == Held(c, Enqueued(q, items, max, fate), m) + Held(c, Dropped(q, items, max, fate), m)
  {
    AppendSplits(c, q, items, max, m);
    AppendSplits(c, q, items, 0, m);
  }

  lemma {:induction false} ConcatWithout(c: Config, hands: seq<seq<string>>, i: nat, m: Message)
    requires i < |hands|
    ensures Held(c, Concat(hands), m) == Held(c, Concat(Without(hands, i)), m) + Held(c, hands[i], m)
  {
    var n := |hands| - 1;
    HeldAppends(c, Concat(hands[..n]), hands[n], m);
    if i == n {
      assert Without(hands, i) == hands[..n];
    } else {
      ConcatWithout(c, hands[..n], i, m);
      var rest := Without(hands, i);
      assert rest[..|rest| - 1] == Without(hands[..n], i) && rest[|rest| - 1] == hands[n];
      HeldAppends(c, Concat(Without(hands[..n], i)), hands[n], m);
    }
  }

  lemma {:induction false} InConcat(hands: seq<seq<string>>, i: nat, p: string)
    requires i < |hands| && p in hands[i]
    ensures p in Concat(hands)
  {
    if i < |hands| - 1 { InConcat(hands[..|hands| - 1], i, p); }
  }

  lemma {:induction false} ConcatWithin(hands: seq<seq<string>>, i: nat, p: string)
    requires i < |hands| && p in Concat(Without(hands, i))
    ensures p in Concat(hands)
  {
    var n := |hands| - 1;
    var rest := Without(hands, i);
    if i == n {
      assert rest == hands[..n];
    } else {
      assert rest[..|rest| - 1] == Without(hands[..n], i) && rest[|rest| - 1] == hands[n];
      if p !in hands[n] { ConcatWithin(hands[..n], i, p); }
    }
  }

  // ---- one batch

  lemma {:induction false} AllDecoded(c: Config, ps: seq<string>)
    requires AllDecode(c, ps)
    ensures |Decoded(c, ps)| == |ps|
    ensures forall i :: 0 <= i < |ps| ==> Decoded(c, ps)[i] == c.decode(ps[i]).value
  {
    if ps != [] { AllDecoded(c, ps[..|ps| - 1]); }
  }

  lemma TimesOneMore(msgs: seq<Message>, x: Message, m: Message)
    ensures Times(msgs + [x], m) == Times(msgs, m) + if x == m then 1 else 0
  {
    assert (msgs + [x])[..|msgs|] == msgs;
  }

  lemma HeldOneMore(c: Config, ps: seq<string>, p: string, m: Message)
    ensures Held(c, ps + [p], m) == Held(c, ps, m) + if c.decode(p) == Some(m) then 1 else 0
  {
    assert (ps + [p])[..|ps|] == ps;
  }

  /** Each message is handed over or its own payload put back. */
  lemma {:induction false} DispatchConserves(c: Config, msgs: seq<Message>, ps: seq<string>, takes: seq<bool>, m: Message)
    requires |msgs| <= |ps|
    requires forall i :: 0 <= i < |msgs| ==> c.decode(ps[i]) == Some(msgs[i])
    ensures Times(msgs, m) == Times(HandedOver(c, msgs, takes), m) + Held(c, PutBack(c, msgs, ps, takes), m)
  {
    if msgs != [] {
      var n := |msgs| - 1;
      DispatchConserves(c, msgs[..n], ps, takes, m);
      if Takes(c, msgs[n], takes, n) {
        TimesOneMore(HandedOver(c, msgs[..n], takes), msgs[n], m);
        assert PutBack(c, msgs, ps, takes) == PutBack(c, msgs[..n], ps, takes);
      } else {
        HeldOneMore(c, PutBack(c, msgs[..n], ps, takes), ps[n], m);
        assert HandedOver(c, msgs, takes) == HandedOver(c, msgs[..n], takes);
      }
    }
  }

  lemma {:induction false} PutBackWithin(c: Config, msgs: seq<Message>, ps: seq<string>, takes: seq<bool>)
    requires |msgs| <= |ps|
    ensures forall p :: p in PutBack(c, msgs, ps, takes) ==> p in ps
  {
    if msgs != [] { PutBackWithin(c, msgs[..|msgs| - 1], ps, takes); }
  }

  lemma SettleConserves(c: Config, ps: seq<string>, kafka: Kafka, m: Message)
    requires AllDecode(c, ps)
    ensures var o := Settled(c, ps, kafka);
            && Held(c, ps, m) == Times(o.published, m) + Times(o.retried, m) + Held(c, o.back, m)
            && AllDecode(c, o.back)
  {
    AllDecoded(c, ps);
    HeldCounts(c, ps, m);
    if kafka.Refused? && c.hasRetry {
      DispatchConserves(c, Decoded(c, ps), ps, kafka.takes, m);
      PutBackWithin(c, Decoded(c, ps), ps, kafka.takes);
    }
  }

  // ---- whole runs

  ghost predicate Conserved(c: Config, s: State, m: Message)
  {
    Held(c, s.enqueued, m) == Held(c, s.queue, m) + Held(c, Concat(s.hands), m)
                              + Times(s.published, m) + Times(s.retried, m) + Held(c, s.gone, m)
  }

  ghost predicate Readable(c: Config, s: State)
  {
    AllDecode(c, s.queue) && AllDecode(c, Concat(s.hands))
  }

  predicate Offers(run: seq<Event>, p: string)
  {
    exists i :: 0 <= i < |run| && run[i].Enqueue? && p in run[i].items
  }

  lemma EnqueueConserves(c: Config, s: State, items: seq<string>, fate: Fate, m: Message)
    requires Conserved(c, s, m)
    ensures Conserved(c, Step(c, s, Enqueue(items, fate)), m)
  {
    HeldAppends(c, s.enqueued, items, m);
    HeldAppends(c, s.gone, Dropped(s.queue, items, c.maxLen, fate), m);
    EnqueuedSplits(c, s.queue, items, c.maxLen, fate, m);
  }

  lemma PopLostConserves(c: Config, s: State, n: nat, m: Message)
    requires Conserved(c, s, m)
    ensures Conserved(c, Step(c, s, PopLost(n)), m)
  {
    var k := Count(n, |s.queue|);
    HeldSplits(c, s.queue, k, m);
    HeldAppends(c, s.gone, s.queue[..k], m);
  }

  lemma PopConserves(c: Config, s: State, n: nat, m: Message)
    requires Conserved(c, s, m)
    ensures Conserved(c, Step(c, s, Pop(n)), m)
  {
    var k := Count(n, |s.queue|);
    var hand := s.queue[..k];
    HeldSplits(c, s.queue, k, m);
    assert (s.hands + [hand])[..|s.hands|] == s.hands;
    HeldAppends(c, Concat(s.hands), hand, m);
  }

  lemma PutBackConserves(c: Config, s: State, back: seq<string>, fate: Fate, m: Message)
    ensures Held(c, s.queue, m) + Held(c, back, m) + Held(c, s.gone, m) ==
            Held(c, Returned(c, s.queue, back, fate), m) + Held(c, GoneWith(c, s, back, fate), m)
  {
    if back == [] {
      assert GoneWith(c, s, back, fate) == s.gone;
    } else {
      HeldAppends(c, s.gone, Dropped(s.queue, back, c.maxLen, fate), m);
      EnqueuedSplits(c, s.queue, back, c.maxLen, fate, m);
    }
  }

  lemma AfterSettleConserves(c: Config, s: State, i: nat, o: Outcome, fate: Fate, m: Message)
    requires Conserved(c, s, m) && i < |s.hands|
    requires Held(c, s.hands[i], m) == Times(o.published, m) + Times(o.retried, m) + Held(c, o.back, m)
    ensures Conserved(c, AfterSettle(c, s, i, o, fate), m)
  {
    ConcatWithout(c, s.hands, i, m);
    TimesAppends(s.published, o.published, m);
    TimesAppends(s.retried, o.retried, m);
    PutBackConserves(c, s, o.back, fate, m);
  }

  lemma SettleStepConserves(c: Config, s: State, i: nat, kafka: Kafka, fate: Fate, m: Message)
    requires Conserved(c, s, m) && Readable(c, s) && i < |s.hands|
    ensures Conserved(c, Step(c, s, Settle(i, kafka, fate)), m)
  {
    forall p | p in s.hands[i] ensures c.decode(p).Some? { InConcat(s.hands, i, p); }
    SettleConserves(c, s.hands[i], kafka, m);
    AfterSettleConserves(c, s, i, Settled(c, s.hands[i], kafka), fate, m);
  }

  lemma StaysReadable(c: Config, s: State, e: Event)
    requires Readable(c, s) && (e.Enqueue? ==> AllDecode(c, e.items))
    ensures Readable(c, Step(c, s, e))
  {
    match e
    case Enqueue(items, fate) => EnqueuedWithin(s.queue, items, c.maxLen, fate);
    case PopLost(_) =>
    case Pop(n) =>
      var k := Count(n, |s.queue|);
      assert (s.hands + [s.queue[..k]])[..|s.hands|] == s.hands;
    case Settle(i, kafka, fate) => if i < |s.hands| { SettleStaysReadable(c, s, i, kafka, fate); }
  }

  lemma EnqueuedWithin(q: seq<string>, items: seq<string>, max: int, fate: Fate)
    ensures forall p :: p in Enqueued(q, items, max, fate) ==> p in q || p in items
  {
  }

  lemma SettleStaysReadable(c: Config, s: State, i: nat, kafka: Kafka, fate: Fate)
    requires Readable(c, s) && i < |s.hands|
    ensures Readable(c, Step(c, s, Settle(i, kafka, fate)))
  {
    forall p | p in s.hands[i] ensures c.decode(p).Some? { InConcat(s.hands, i, p); }
    SettleConserves(c, s.hands[i], kafka, Message("", "", ""));
    EnqueuedWithin(s.queue, Settled(c, s.hands[i], kafka).back, c.maxLen, fate);
    forall p | p in Concat(Without(s.hands, i)) ensures c.decode(p).Some? { ConcatWithin(s.hands, i, p); }
  }

  lemma {:induction false} AlwaysConserved(c: Config, run: seq<Event>, m: Message)
    requires forall p :: Offers(run, p) ==> c.decode(p).Some?
    ensures Conserved(c, Exec(c, run), m) && Readable(c, Exec(c, run))
  {
    if run != [] {
      var n := |run| - 1;
      var before, e := run[..n], run[n];
      forall p | Offers(before, p) ensures Offers(run, p) {
        var i :| 0 <= i < |before| && before[i].Enqueue? && p in before[i].items;
        assert run[i].Enqueue?;
      }
      AlwaysConserved(c, before, m);
      var s := Exec(c, before);
      if e.Enqueue? {
        forall p | p in e.items ensures c.decode(p).Some? { assert run[n].Enqueue? && Offers(run, p); }
      }
      StaysReadable(c, s, e);
      match e
      case Enqueue(items, fate) => EnqueueConserves(c, s, items, fate, m);
      case Pop(k) => PopConserves(c, s, k, m);
      case PopLost(k) => PopLostConserves(c, s, k, m);
      case Settle(i, kafka, fate) => if i < |s.hands| { SettleStepConserves(c, s, i, kafka, fate, m); }
    }
  }

  /** Nothing vanishes and nothing doubles: in every interleaving of producers and drainers, with
      Kafka and the retry scheduler failing at will, every message was enqueued as often as it is
      buffered, in a drainer's hand, published, handed to the retry scheduler, or in gone. */
  lemma MessagesAreConserved(c: Config, run: seq<Event>, m: Message)
    requires forall p :: Offers(run, p) ==> c.decode(p).Some?
    ensures var s := Exec(c, run);
            multiset(Decoded(c, s.enqueued))[m] ==
              multiset(Decoded(c, s.queue))[m] + multiset(Decoded(c, Concat(s.hands)))[m]
              + multiset(s.published)[m] + multiset(s.retried)[m] + multiset(Decoded(c, s.gone))[m]
  {
    AlwaysConserved(c, run, m);
    var s := Exec(c, run);
    forall ps ensures multiset(Decoded(c, ps))[m] == Held(c, ps, m) {
      HeldCounts(c, ps, m);
      TimesCounts(Decoded(c, ps), m);
    }
    TimesCounts(s.published, m);
    TimesCounts(s.retried, m);
  }

  // ---- order

  /** No drainer pops while another holds a batch, Kafka takes every batch. */
  ghost predicate Smooth(c: Config, run: seq<Event>)
  {
    forall i :: 0 <= i < |run| ==>
      (run[i].Pop? ==> Exec(c, run[..i]).hands == []) && (run[i].Settle? ==> run[i].kafka.Sent?)
  }

  /** FIFO: while the list never overflows, the messages leave in the order they came in. */
  lemma {:induction false} PublishedInOrder(c: Config, run: seq<Event>)
    requires Smooth(c, run) && Exec(c, run).gone == []
    ensures var s := Exec(c, run);
            && |s.hands| <= 1
            && Decoded(c, s.enqueued) == s.published + Decoded(c, Concat(s.hands)) + Decoded(c, s.queue)
  {
    if run != [] {
      var n := |run| - 1;
      var before, e := run[..n], run[n];
      var s := Exec(c, before);
      assert Smooth(c, before) by {
        forall i | 0 <= i < |before|
          ensures (before[i].Pop? ==> Exec(c, before[..i]).hands == []) && (before[i].Settle? ==> before[i].kafka.Sent?)
        {
          assert before[..i] == run[..i] && before[i] == run[i];
        }
      }
      PublishedInOrder(c, before);
      KeepsOrder(c, s, e);
    }
  }

  lemma KeepsOrder(c: Config, s: State, e: Event)
    requires |s.hands| <= 1 && Step(c, s, e).gone == [] == s.gone
    requires (e.Pop? ==> s.hands == []) && (e.Settle? ==> e.kafka.Sent?)
    requires Decoded(c, s.enqueued) == s.published + Decoded(c, Concat(s.hands)) + Decoded(c, s.queue)
    ensures var t := Step(c, s, e);
            && |t.hands| <= 1
            && Decoded(c, t.enqueued) == t.published + Decoded(c, Concat(t.hands)) + Decoded(c, t.queue)
  {
    match e
    case Enqueue(items, fate) => EnqueueKeepsOrder(c, s, items, fate);
    case Pop(n) => PopKeepsOrder(c, s, n);
    case PopLost(n) => assert s.queue[..Count(n, |s.queue|)] == []; assert s.queue[Count(n, |s.queue|)..] == s.queue;
    case Settle(i, _, _) =>
      if i < |s.hands| {
        assert s.hands == [s.hands[0]];
        assert Concat(s.hands) == s.hands[0];
        assert Without(s.hands, i) == [];
        assert s.retried + [] == s.retried && s.gone + [] == s.gone;
      }
  }

  lemma EnqueueKeepsOrder(c: Config, s: State, items: seq<string>, fate: Fate)
    requires Step(c, s, Enqueue(items, fate)).gone == [] == s.gone
    requires Decoded(c, s.enqueued) == s.published + Decoded(c, Concat(s.hands)) + Decoded(c, s.queue)
    ensures var t := Step(c, s, Enqueue(items, fate));
            Decoded(c, t.enqueued) == t.published + Decoded(c, Concat(t.hands)) + Decoded(c, t.queue)
  {
    DecodedAppends(c, s.enqueued, items);
    DecodedAppends(c, s.queue, items);
    GrowAtEnd(s.published + Decoded(c, Concat(s.hands)), Decoded(c, s.queue), Decoded(c, items));
    assert Enqueued(s.queue, items, c.maxLen, fate) == s.queue + items || items == [] || fate == Lost(0);
  }

  lemma GrowAtEnd<T>(a: seq<T>, b: seq<T>, more: seq<T>)
    ensures (a + b) + more == a + (b + more)
  {
  }

  lemma PopKeepsOrder(c: Config, s: State, n: nat)
    requires s.hands == []
    requires Decoded(c, s.enqueued) == s.published + Decoded(c, Concat(s.hands)) + Decoded(c, s.queue)
    ensures var t := Step(c, s, Pop(n));
            Decoded(c, t.enqueued) == t.published + Decoded(c, Concat(t.hands)) + Decoded(c, t.queue)
  {
    var k := Count(n, |s.queue|);
    var hand, rest := s.queue[..k], s.queue[k..];
    DecodedAppends(c, hand, rest);
    assert hand + rest == s.queue;
    assert Concat([hand]) == [] + hand == hand;
    GrowAtEnd(s.published, Decoded(c, hand), Decoded(c, rest));
    assert s.published + [] == s.published;
  }

  lemma {:induction false} DecodedAppends(c: Config, a: seq<string>, b: seq<string>)
    ensures Decoded(c, a + b) == Decoded(c, a) + Decoded(c, b)
  {
    if b == [] {
      assert a + b == a;
    } else {
      var n := |b| - 1;
      DecodedAppends(c, a, b[..n]);
      assert (a + b)[..|a + b| - 1] == a + b[..n];
    }
  }

  // ---- the pairing of messages with payloads

  /** The payloads that decode. */
  function Good(c: Config, ps: seq<string>): seq<string>
  {
    if ps == [] then []
    else
      var n := |ps| - 1;
      Good(c, ps[..n]) + if c.decode(ps[n]).Some? then [ps[n]] else []
  }

  /** No unreadable payload stands before a readable one. */
  ghost predicate GoodFirst(c: Config, ps: seq<string>)
  {
    forall i, j :: 0 <= i < j < |ps| && c.decode(ps[j]).Some? ==> c.decode(ps[i]).Some?
  }

  lemma {:induction false} GoodShape(c: Config, ps: seq<string>)
    ensures |Good(c, ps)| == |Decoded(c, ps)|
    ensures forall i :: 0 <= i < |Good(c, ps)| ==> c.decode(Good(c, ps)[i]) == Some(Decoded(c, ps)[i])
  {
    if ps != [] { GoodShape(c, ps[..|ps| - 1]); }
  }

  lemma {:induction false} GoodIsPrefix(c: Config, ps: seq<string>)
    ensures |Good(c, ps)| <= |ps|
    ensures GoodFirst(c, ps) <==> Good(c, ps) == ps[..|Good(c, ps)|]
  {
    if ps != [] {
      var n := |ps| - 1;
      GoodIsPrefix(c, ps[..n]);
      GoodShape(c, ps);
      GoodShape(c, ps[..n]);
      var g, g' := Good(c, ps[..n]), Good(c, ps);
      assert ps[..n][..|g|] == ps[..|g|];
      if c.decode(ps[n]).Some? {
        if g' == ps[..|g'|] {
          assert g == g'[..|g|] && ps[|g|] == g'[|g|];
          if |g| < n { GoodFull(c, ps[..n], |g|); }
        }
        if GoodFirst(c, ps) {
          assert GoodFirst(c, ps[..n]);
          if |g| < n { GoodFull(c, ps[..n], |g|); }
        }
      } else {
        assert g' == g;
        if GoodFirst(c, ps) { assert GoodFirst(c, ps[..n]); }
      }
    }
  }

  /** If everything up to and including index k decodes, there are more than k good payloads. */
  lemma {:induction false} GoodFull(c: Config, ps: seq<string>, k: nat)
    requires k < |ps| && forall i :: 0 <= i <= k ==> c.decode(ps[i]).Some?
    ensures |Good(c, ps)| > k
  {
    var n := |ps| - 1;
    if k < n {
      GoodFull(c, ps[..n], k);
    } else if k > 0 {
      GoodFull(c, ps[..n], k - 1);
    }
  }

  lemma {:induction false} PutBackPointwise(c: Config, msgs: seq<Message>, a: seq<string>, b: seq<string>, takes: seq<bool>)
    requires |msgs| <= |a| && |msgs| <= |b| && a[..|msgs|] == b[..|msgs|]
    ensures PutBack(c, msgs, a, takes) == PutBack(c, msgs, b, takes)
  {
    if msgs != [] {
      var n := |msgs| - 1;
      assert a[..n] == a[..|msgs|][..n] && b[..n] == b[..|msgs|][..n];
      assert a[n] == a[..|msgs|][n] && b[n] == b[..|msgs|][n];
      PutBackPointwise(c, msgs[..n], a, b, takes);
    }
  }

  lemma {:induction false} PutBackAll(c: Config, msgs: seq<Message>, ps: seq<string>)
    requires |msgs| <= |ps|
    ensures PutBack(c, msgs, ps, []) == ps[..|msgs|]
  {
    if msgs != [] { PutBackAll(c, msgs[..|msgs| - 1], ps); }
  }

  /** dispatchToRetry puts back the payloads of exactly the messages it failed to hand over,
      whatever the retry scheduler does, if and only if no unreadable payload of the batch stands
      before a readable one. */
  lemma PairingExact(c: Config, ps: seq<string>)
    ensures |Good(c, ps)| == |Decoded(c, ps)|
    ensures (forall takes :: PutBack(c, Decoded(c, ps), ps, takes) == PutBack(c, Decoded(c, ps), Good(c, ps), takes))
            <==> GoodFirst(c, ps)
  {
    var msgs, g := Decoded(c, ps), Good(c, ps);
    GoodShape(c, ps);
    GoodIsPrefix(c, ps);
    assert g[..|msgs|] == g;
    if GoodFirst(c, ps) {
      forall takes ensures PutBack(c, msgs, ps, takes) == PutBack(c, msgs, g, takes) {
        PutBackPointwise(c, msgs, ps, g, takes);
      }
    } else {
      PutBackAll(c, msgs, ps);
      PutBackAll(c, msgs, g);
      assert PutBack(c, msgs, ps, []) != PutBack(c, msgs, g, []);
    }
  }

  /** The loss it causes: an unreadable payload, then a readable one the scheduler refuses. The
      unreadable one is put back and the job is nowhere. */
  lemma MispairedJobIsLost(c: Config, bad: string, good: string)
    requires c.decode(bad).None? && c.decode(good).Some? && c.hasRetry
    ensures Settled(c, [bad, good], Refused([false])) == Outcome([], [], [bad])
  {
    var m := c.decode(good).value;
    assert [bad, good][..1] == [bad];
    assert Decoded(c, [bad]) == [];
    assert Decoded(c, [bad, good]) == [m];
    assert [m][..0] == [];
    assert HandedOver(c, [m], [false]) == [] && PutBack(c, [m], [bad, good], [false]) == [bad];
  }
}
