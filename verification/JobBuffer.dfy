/** The Redis LIST used as a bounded FIFO (pkg/redis/job_buffer.go) and the producer in front of
    it (pkg/queue/buffering_producer.go). */
module JobBuffer {
  import opened Strings

  function Reverse<T>(s: seq<T>): (r: seq<T>)
    ensures |r| == |s| && forall i :: 0 <= i < |s| ==> r[i] == s[|s| - 1 - i]
  {
    seq(|s|, i requires 0 <= i < |s| => s[|s| - 1 - i])
  }

  // ---- the list commands; index 0 is the head

  function LPush<T>(list: seq<T>, args: seq<T>): seq<T>
  {
    Reverse(args) + list
  }

  /** LTRIM key 0 max-1. */
  function LTrim<T>(list: seq<T>, max: nat): seq<T>
  {
    if |list| <= max then list else list[..max]
  }

  function Count(n: int, size: nat): nat
  {
    if n <= 0 then 0 else if n < size then n else size
  }

  /** RPOP key n: the popped elements, tail first, and what is left. */
  function RPop<T>(list: seq<T>, n: int): (seq<T>, seq<T>)
  {
    var k := |list| - Count(n, |list|);
    (Reverse(list[k..]), list[..k])
  }

  // ---- the queue they implement: oldest first

  function Queue<T>(list: seq<T>): seq<T>
  {
    Reverse(list)
  }

  /** Append, and on overflow forget the oldest. */
  function Append<T>(q: seq<T>, items: seq<T>, max: int): seq<T>
  {
    var all := q + items;
    if max <= 0 || |all| <= max then all else all[|all| - max..]
  }

  /** The LIST refines the bounded queue. */
  lemma PushRefinesAppend<T>(list: seq<T>, items: seq<T>, max: int)
    ensures Queue(if max > 0 then LTrim(LPush(list, items), max) else LPush(list, items)) == Append(Queue(list), items, max)
  {
    var all := LPush(list, items);
    assert Queue(all) == Queue(list) + items;
    if max > 0 { assert Queue(LTrim(all, max)) == Append(Queue(list), items, max); }
  }

  /** The newest elements stay, in order, as many as there is room for. */
  lemma AppendForgetsOldest<T>(q: seq<T>, items: seq<T>, max: int)
    ensures var r, all := Append(q, items, max), q + items;
            && |r| == (if max <= 0 || |all| <= max then |all| else max)
            && r == all[|all| - |r|..]
  {
  }

  lemma PopRefinesTake<T>(list: seq<T>, n: int)
    ensures var (popped, rest) := RPop(list, n);
            var k := Count(n, |list|);
            popped == Queue(list)[..k] && Queue(rest) == Queue(list)[k..]
  {
  }

  /** What became of a pipeline or command: answered, or its reply lost after Redis ran this many of
      its commands. */
  datatype Fate = Answered | Lost(ran: nat)

  /** The queue after an enqueue's LPUSH and LTRIM. */
  function Enqueued<T>(q: seq<T>, items: seq<T>, max: int, fate: Fate): seq<T>
  {
    match fate
    case Answered => Append(q, items, max)
    case Lost(ran) => if ran == 0 then q else Append(q, items, if ran == 1 then 0 else max)
  }

  /** The list after the commands of an enqueue that Redis ran. */
  function Pushed<T>(list: seq<T>, items: seq<T>, max: int, fate: Fate): seq<T>
  {
    if fate == Lost(0) then list
    else if max > 0 && fate != Lost(1) then LTrim(LPush(list, items), max)
    else LPush(list, items)
  }

  lemma PushedRefinesEnqueued<T>(list: seq<T>, items: seq<T>, max: int, fate: Fate)
    ensures Queue(Pushed(list, items, max, fate)) == Enqueued(Queue(list), items, max, fate)
  {
    PushRefinesAppend(list, items, max);
    PushRefinesAppend(list, items, 0);
  }

  /** What one enqueue reports: an argument error, the loss of the pipeline, or success. */
  datatype BufferError = NoError | EmptyLabel | EmptyPayload(at: nat) | Infrastructure

  class JobBuffer {
    var lists: map<string, seq<string>>

    constructor ()
      ensures lists == map[]
    {
      lists := map[];
    }

    function ListOf(name: string): seq<string>
      reads this
    {
      if name in lists then lists[name] else []
    }

    method EnqueueBatch(name: string, payloads: seq<string>, maxLen: int, fate: Fate) returns (err: BufferError)
      modifies this
      ensures name == "" ==> err == EmptyLabel && lists == old(lists)
      ensures name != "" && payloads == [] ==> err == NoError && lists == old(lists)
      ensures name != "" && payloads != [] && "" in payloads ==>
                && err.EmptyPayload? && err.at < |payloads| && payloads[err.at] == "" && "" !in payloads[..err.at]
                && lists == old(lists)
      ensures name != "" && payloads != [] && "" !in payloads ==>
                && err == (if fate.Lost? then Infrastructure else NoError)
                && (forall l :: l != name ==> ListOf(l) == old(ListOf(l)))
                && Queue(ListOf(name)) == Enqueued(Queue(old(ListOf(name))), payloads, maxLen, fate)
      ensures fate == Lost(0) ==> lists == old(lists)
      ensures name != "" && payloads != [] && "" !in payloads && fate != Lost(0) ==>
                var q, all := Queue(ListOf(name)), Queue(old(ListOf(name))) + payloads;
                && q == all[|all| - |q|..]
                && |q| == if fate == Lost(1) || maxLen <= 0 || |all| <= maxLen then |all| else maxLen
    {
      if name == "" { return EmptyLabel; }
      if payloads == [] { return NoError; }
      var i := 0;
      while i < |payloads|
        invariant 0 <= i <= |payloads| && "" !in payloads[..i]
      {
        if payloads[i] == "" { return EmptyPayload(i); }
        i := i + 1;
      }
      PushedRefinesEnqueued(ListOf(name), payloads, maxLen, fate);
      if fate == Lost(0) { return Infrastructure; }
      var list := LPush(ListOf(name), payloads);
      if maxLen > 0 && fate != Lost(1) { list := LTrim(list, maxLen); }
      assert list == Pushed(ListOf(name), payloads, maxLen, fate);
      lists := lists[name := list];
      err := if fate.Lost? then Infrastructure else NoError;
    }

    /** A reply lost after the RPOP ran loses the popped jobs with it. */
    method DrainJobs(name: string, n: int, fate: Fate) returns (out: seq<string>, err: BufferError)
      modifies this
      ensures n <= 0 ==> out == [] && err == NoError && lists == old(lists)
      ensures n > 0 && name == "" ==> out == [] && err == EmptyLabel && lists == old(lists)
      ensures n > 0 && name != "" && fate == Lost(0) ==> lists == old(lists)
      ensures n > 0 && name != "" ==>
                var q := Queue(old(ListOf(name)));
                var k := Count(n, |q|);
                && err == (if fate.Lost? then Infrastructure else NoError)
                && out == (if fate.Lost? then [] else q[..k])
                && Queue(ListOf(name)) == (if fate == Lost(0) then q else q[k..])
                && (forall l :: l != name ==> ListOf(l) == old(ListOf(l)))
    {
      out, err := [], NoError;
      if n <= 0 { return; }
      if name == "" { return [], EmptyLabel; }
      if fate == Lost(0) { return [], Infrastructure; }
      PopRefinesTake(ListOf(name), n);
      var (res, rest) := RPop(ListOf(name), n);
      var i := 0;
      while i < |res|
        invariant 0 <= i <= |res| && out == res[..i]
      {
        out := out + [res[i]];
        i := i + 1;
      }
      assert res[..i] == res;
      lists := lists[name := rest];
      if fate.Lost? { return [], Infrastructure; }
    }
  }

  // ---- BufferingProducer

  const TopicNormal := "issuetracker.crawl.normal"
  const TopicLow := "issuetracker.crawl.low"

  datatype Message = Message(topic: string, key: string, value: string)

  function LabelForTopic(topic: string): string
  {
    if topic == TopicNormal then "normal" else if topic == TopicLow then "low" else ""
  }

  /** encode serialises a message, or fails. */
  type Encoder = Message -> Option<string>

  predicate Buffered(encode: Encoder, m: Message, name: string)
  {
    name != "" && LabelForTopic(m.topic) == name && encode(m).Some?
  }

  predicate Direct(encode: Encoder, m: Message)
  {
    LabelForTopic(m.topic) == "" || encode(m).None?
  }

  /** name "" stands for the direct path. */
  predicate Routed(encode: Encoder, m: Message, name: string)
  {
    if name == "" then Direct(encode, m) else Buffered(encode, m, name)
  }

  function Pick(encode: Encoder, msgs: seq<Message>, name: string): seq<Message>
  {
    if msgs == [] then []
    else
      var n := |msgs| - 1;
      Pick(encode, msgs[..n], name)
      + (if Routed(encode, msgs[n], name) then [msgs[n]] else [])
  }

  /** Routing looks at one message at a time and keeps the order. */
  lemma {:induction false} PickDistributes(encode: Encoder, a: seq<Message>, b: seq<Message>, name: string)
    ensures Pick(encode, a + b, name) == Pick(encode, a, name) + Pick(encode, b, name)
  {
    if b == [] {
      assert a + b == a;
    } else {
      var n := |b| - 1;
      PickDistributes(encode, a, b[..n], name);
      assert (a + b)[..|a + b| - 1] == a + b[..n];
      assert (a + b)[|a + b| - 1] == b[n];
    }
  }

  /** A message of one of the two buffered topics that encodes goes to that topic's buffer, every other
      message is published directly. */
  lemma RouteOfOne(encode: Encoder, m: Message)
    ensures Pick(encode, [m], "normal") == if m.topic == "issuetracker.crawl.normal" && encode(m).Some? then [m] else []
    ensures Pick(encode, [m], "low") == if m.topic == "issuetracker.crawl.low" && encode(m).Some? then [m] else []
    ensures Pick(encode, [m], "") ==
            if m.topic in {"issuetracker.crawl.normal", "issuetracker.crawl.low"} && encode(m).Some? then [] else [m]
  {
    assert Pick(encode, [m][..0], "normal") == [] && Pick(encode, [m][..0], "low") == [] && Pick(encode, [m][..0], "") == [];
  }

  lemma {:induction false} PickCounts(encode: Encoder, msgs: seq<Message>, name: string, m: Message)
    ensures multiset(Pick(encode, msgs, name))[m] == if m in Pick(encode, [m], name) then multiset(msgs)[m] else 0
  {
    if msgs != [] {
      var n := |msgs| - 1;
      PickCounts(encode, msgs[..n], name, m);
      assert msgs == msgs[..n] + [msgs[n]];
      PickGrows(encode, msgs[..n], msgs[n], name);
      assert [m][..0] == [];
    }
  }

  function Payloads(encode: Encoder, msgs: seq<Message>): (ps: seq<string>)
    requires forall i :: 0 <= i < |msgs| ==> encode(msgs[i]).Some?
    ensures |ps| == |msgs| && forall i :: 0 <= i < |ps| ==> Some(ps[i]) == encode(msgs[i])
  {
    seq(|msgs|, i requires 0 <= i < |msgs| => encode(msgs[i]).value)
  }

  lemma {:induction false} PickEncodes(encode: Encoder, msgs: seq<Message>, name: string)
    requires name != ""
    ensures forall i :: 0 <= i < |Pick(encode, msgs, name)| ==> Buffered(encode, Pick(encode, msgs, name)[i], name)
  {
    if msgs != [] { PickEncodes(encode, msgs[..|msgs| - 1], name); }
  }

  function One(encode: Encoder, m: Message, name: string): multiset<Message>
  {
    if Routed(encode, m, name) then multiset{m} else multiset{}
  }

  lemma PickGrows(encode: Encoder, msgs: seq<Message>, m: Message, name: string)
    ensures multiset(Pick(encode, msgs + [m], name)) == multiset(Pick(encode, msgs, name)) + One(encode, m, name)
  {
    assert (msgs + [m])[..|msgs|] == msgs;
  }

  /** Every message has exactly one route. */
  lemma OneRoute(encode: Encoder, m: Message)
    ensures One(encode, m, "normal") + One(encode, m, "low") + One(encode, m, "") == multiset{m}
  {
  }

  lemma {:induction false} RoutesPartition(encode: Encoder, msgs: seq<Message>, a: string, b: string, c: string)
    requires forall m :: One(encode, m, a) + One(encode, m, b) + One(encode, m, c) == multiset{m}
    ensures multiset(msgs) == multiset(Pick(encode, msgs, a)) + multiset(Pick(encode, msgs, b)) + multiset(Pick(encode, msgs, c))
  {
    if msgs != [] {
      var before, m := msgs[..|msgs| - 1], msgs[|msgs| - 1];
      RoutesPartition(encode, before, a, b, c);
      assert msgs == before + [m];
      PickGrows(encode, before, m, a);
      PickGrows(encode, before, m, b);
      PickGrows(encode, before, m, c);
      Regroup(multiset(Pick(encode, before, a)), multiset(Pick(encode, before, b)), multiset(Pick(encode, before, c)),
              One(encode, m, a), One(encode, m, b), One(encode, m, c));
    }
  }

  lemma Regroup<T>(a: multiset<T>, b: multiset<T>, c: multiset<T>, x: multiset<T>, y: multiset<T>, z: multiset<T>)
    ensures (a + x) + (b + y) + (c + z) == (a + b + c) + (x + y + z)
  {
  }

  /** Routing loses nothing and doubles nothing: each message is buffered under its own label or
      published directly. */
  lemma RoutingIsAPartition(encode: Encoder, msgs: seq<Message>)
    ensures multiset(msgs) == multiset(Pick(encode, msgs, "normal")) + multiset(Pick(encode, msgs, "low"))
                              + multiset(Pick(encode, msgs, ""))
  {
    forall m { OneRoute(encode, m); }
    RoutesPartition(encode, msgs, "normal", "low", "");
  }

  // ---- copies

  /** A batch whose enqueue reports an error is published directly as well. */
  function FallBackOf(items: seq<Message>, fate: Fate): seq<Message>
  {
    if fate.Lost? then items else []
  }

  /** A batch Redis has taken, whatever it answered. */
  function TakenOf(items: seq<Message>, fate: Fate): seq<Message>
  {
    if fate == Lost(0) then [] else items
  }

  function DirectOne(encode: Encoder, m: Message, fate: Fate): seq<Message>
  {
    if Buffered(encode, m, LabelForTopic(m.topic)) && fate.Answered? then [] else [m]
  }

  function Fallback(encode: Encoder, msgs: seq<Message>, lowFirst: bool, normalFate: Fate, lowFate: Fate): seq<Message>
  {
    var normal, low := FallBackOf(Pick(encode, msgs, "normal"), normalFate), FallBackOf(Pick(encode, msgs, "low"), lowFate);
    Pick(encode, msgs, "") + (if lowFirst then low + normal else normal + low)
  }

  /** The messages of a batch that end up both in a buffer and published directly. */
  function Doubled(items: seq<Message>, fate: Fate): seq<Message>
  {
    if fate.Lost? && fate.ran > 0 then items else []
  }

  lemma TwoPlaces(items: seq<Message>, fate: Fate)
    ensures multiset(FallBackOf(items, fate)) + multiset(TakenOf(items, fate)) == multiset(items) + multiset(Doubled(items, fate))
  {
  }

  /** Of a published batch every message is buffered or published directly, none is lost, and exactly
      those are in both places whose enqueue lost its reply after Redis ran its LPUSH. */
  lemma CopiesExactly(encode: Encoder, msgs: seq<Message>, lowFirst: bool, normalFate: Fate, lowFate: Fate)
    ensures var normal, low := Pick(encode, msgs, "normal"), Pick(encode, msgs, "low");
            multiset(Fallback(encode, msgs, lowFirst, normalFate, lowFate))
            + multiset(TakenOf(normal, normalFate)) + multiset(TakenOf(low, lowFate))
            == multiset(msgs) + multiset(Doubled(normal, normalFate)) + multiset(Doubled(low, lowFate))
  {
    var normal, low, rest := Pick(encode, msgs, "normal"), Pick(encode, msgs, "low"), Pick(encode, msgs, "");
    RoutingIsAPartition(encode, msgs);
    TwoPlaces(normal, normalFate);
    TwoPlaces(low, lowFate);
    FallbackBag(encode, msgs, lowFirst, normalFate, lowFate);
    AddUp(multiset(rest), multiset(normal), multiset(low), multiset(FallBackOf(normal, normalFate)),
          multiset(FallBackOf(low, lowFate)), multiset(TakenOf(normal, normalFate)), multiset(TakenOf(low, lowFate)),
          multiset(Doubled(normal, normalFate)), multiset(Doubled(low, lowFate)));
  }

  /** The same, message by message: how many copies of m are published directly, and how many more its
      enqueue has put into a buffer. */
  lemma CopiesOfOne(encode: Encoder, msgs: seq<Message>, lowFirst: bool, normalFate: Fate, lowFate: Fate, m: Message)
    ensures var n := multiset(msgs)[m];
            var toNormal := m.topic == "issuetracker.crawl.normal" && encode(m).Some?;
            var toLow := m.topic == "issuetracker.crawl.low" && encode(m).Some?;
            var direct := multiset(Fallback(encode, msgs, lowFirst, normalFate, lowFate))[m];
            && direct == (if (toNormal && normalFate.Answered?) || (toLow && lowFate.Answered?) then 0 else n)
            && multiset(Pick(encode, msgs, "normal"))[m] == (if toNormal then n else 0)
            && multiset(Pick(encode, msgs, "low"))[m] == (if toLow then n else 0)
            && direct + (if (toNormal && normalFate != Lost(0)) || (toLow && lowFate != Lost(0)) then n else 0)
               == n + (if (toNormal && normalFate.Lost? && normalFate.ran > 0) || (toLow && lowFate.Lost? && lowFate.ran > 0)
                       then n else 0)
  {
    FallbackBag(encode, msgs, lowFirst, normalFate, lowFate);
    RouteOfOne(encode, m);
    PickCounts(encode, msgs, "normal", m);
    PickCounts(encode, msgs, "low", m);
    PickCounts(encode, msgs, "", m);
  }

  /** Publishing one message is publishing a batch of one. */
  lemma OneIsABatch(encode: Encoder, m: Message, lowFirst: bool, fate: Fate)
    ensures DirectOne(encode, m, fate) == Fallback(encode, [m], lowFirst, fate, fate)
  {
    RouteOfOne(encode, m);
  }

  lemma FallbackBag(encode: Encoder, msgs: seq<Message>, lowFirst: bool, normalFate: Fate, lowFate: Fate)
    ensures multiset(Fallback(encode, msgs, lowFirst, normalFate, lowFate)) ==
            multiset(Pick(encode, msgs, "")) + multiset(FallBackOf(Pick(encode, msgs, "normal"), normalFate))
            + multiset(FallBackOf(Pick(encode, msgs, "low"), lowFate))
  {
    ThreeBags(Pick(encode, msgs, ""), FallBackOf(Pick(encode, msgs, "normal"), normalFate),
              FallBackOf(Pick(encode, msgs, "low"), lowFate));
  }

  lemma ThreeBags<T>(a: seq<T>, b: seq<T>, c: seq<T>)
    ensures multiset(a + (b + c)) == multiset(a) + multiset(b) + multiset(c)
    ensures multiset(a + (c + b)) == multiset(a) + multiset(b) + multiset(c)
  {
  }

  lemma Join<T>(a: seq<T>, b: seq<T>, c: seq<T>)
    ensures a + b + c == a + (b + c)
    ensures a + c + b == a + (c + b)
  {
  }

  lemma AddUp<T>(r: multiset<T>, n: multiset<T>, l: multiset<T>, fn: multiset<T>, fl: multiset<T>,
                 tn: multiset<T>, tl: multiset<T>, dn: multiset<T>, dl: multiset<T>)
    requires fn + tn == n + dn && fl + tl == l + dl
    ensures (r + fn + fl) + tn + tl == (n + l + r) + dn + dl
  {
    assert (r + fn + fl) + tn + tl == r + (fn + tn) + (fl + tl);
    assert r + (n + dn) + (l + dl) == (n + l + r) + dn + dl;
  }

  class BufferingProducer {
    const buffer: JobBuffer
    const encode: Encoder
    const maxLen: int

    constructor (buffer: JobBuffer, encode: Encoder, maxLen: int)
      ensures this.buffer == buffer && this.encode == encode && this.maxLen == maxLen
    {
      this.buffer, this.encode, this.maxLen := buffer, encode, maxLen;
    }

    /** direct is what is handed to the underlying producer: the message or nothing. */
    method Publish(m: Message, fate: Fate) returns (direct: seq<Message>)
      requires encode(m) != Some("")
      modifies buffer
      ensures direct == DirectOne(encode, m, fate)
      ensures var buffered := m.topic in {"issuetracker.crawl.normal", "issuetracker.crawl.low"} && encode(m).Some?;
              && (direct == [] || direct == [m])
              && |direct| + (if buffered && fate != Lost(0) then 1 else 0)
                 == 1 + (if buffered && fate.Lost? && fate.ran > 0 then 1 else 0)
      ensures forall encoded, name :: encode(m) == Some(encoded)
                && ((m.topic == "issuetracker.crawl.normal" && name == "normal")
                    || (m.topic == "issuetracker.crawl.low" && name == "low"))
                ==> Queue(buffer.ListOf(name)) == Enqueued(Queue(old(buffer.ListOf(name))), [encoded], maxLen, fate)
      ensures var name := LabelForTopic(m.topic);
              if Buffered(encode, m, name)
              then Queue(buffer.ListOf(name)) == Enqueued(Queue(old(buffer.ListOf(name))), [encode(m).value], maxLen, fate)
              else buffer.lists == old(buffer.lists)
    {
      var name := LabelForTopic(m.topic);
      if name == "" { return [m]; }
      var payload := encode(m);
      if payload.None? { return [m]; }
      var err := buffer.EnqueueBatch(name, [payload.value], maxLen, fate);
      direct := if err != NoError then [m] else [];
    }

    /** direct is the batch handed to the underlying producer. The labels are visited in either
        order; the fates are those of the two enqueues. */
    method PublishBatch(msgs: seq<Message>, lowFirst: bool, normalFate: Fate, lowFate: Fate) returns (direct: seq<Message>)
      requires forall m: Message :: encode(m) != Some("")
      modifies buffer
      ensures var normal, low := Pick(encode, msgs, "normal"), Pick(encode, msgs, "low");
              && direct == Fallback(encode, msgs, lowFirst, normalFate, lowFate)
              && (forall i :: 0 <= i < |normal| ==> encode(normal[i]).Some?)
              && (forall i :: 0 <= i < |low| ==> encode(low[i]).Some?)
              && Queue(buffer.ListOf("normal")) ==
                   (if normal == [] then Queue(old(buffer.ListOf("normal")))
                    else Enqueued(Queue(old(buffer.ListOf("normal"))), Payloads(encode, normal), maxLen, normalFate))
              && Queue(buffer.ListOf("low")) ==
                   (if low == [] then Queue(old(buffer.ListOf("low")))
                    else Enqueued(Queue(old(buffer.ListOf("low"))), Payloads(encode, low), maxLen, lowFate))
    {
      var normal, low;
      direct, normal, low := Classify(msgs);
      PickEncodes(encode, msgs, "normal");
      PickEncodes(encode, msgs, "low");
      Join(direct, FallBackOf(normal, normalFate), FallBackOf(low, lowFate));
      if lowFirst {
        direct := EnqueueOrFallBack("low", low, lowFate, direct);
        direct := EnqueueOrFallBack("normal", normal, normalFate, direct);
      } else {
        direct := EnqueueOrFallBack("normal", normal, normalFate, direct);
        direct := EnqueueOrFallBack("low", low, lowFate, direct);
      }
    }

    /** The first loop of PublishBatch. */
    method Classify(msgs: seq<Message>) returns (direct: seq<Message>, normal: seq<Message>, low: seq<Message>)
      ensures direct == Pick(encode, msgs, "")
      ensures normal == Pick(encode, msgs, "normal") && low == Pick(encode, msgs, "low")
    {
      direct, normal, low := [], [], [];
      var i := 0;
      while i < |msgs|
        invariant 0 <= i <= |msgs|
        invariant direct == Pick(encode, msgs[..i], "")
        invariant normal == Pick(encode, msgs[..i], "normal") && low == Pick(encode, msgs[..i], "low")
      {
        assert msgs[..i + 1][..i] == msgs[..i];
        var name := LabelForTopic(msgs[i].topic);
        if name == "" || encode(msgs[i]).None? {
          direct := direct + [msgs[i]];
        } else if name == "normal" {
          normal := normal + [msgs[i]];
        } else {
          low := low + [msgs[i]];
        }
        i := i + 1;
      }
      assert msgs[..i] == msgs;
    }

    method EnqueueOrFallBack(name: string, items: seq<Message>, fate: Fate, direct: seq<Message>) returns (d: seq<Message>)
      requires name != ""
      requires forall m: Message :: encode(m) != Some("")
      requires forall i :: 0 <= i < |items| ==> encode(items[i]).Some?
      modifies buffer
      ensures d == direct + FallBackOf(items, fate)
      ensures forall l :: l != name ==> buffer.ListOf(l) == old(buffer.ListOf(l))
      ensures Queue(buffer.ListOf(name)) ==
                if items == [] then Queue(old(buffer.ListOf(name)))
                else Enqueued(Queue(old(buffer.ListOf(name))), Payloads(encode, items), maxLen, fate)
    {
      d := direct;
      if items == [] { return; }
      var payloads := Payloads(encode, items);
      var err := buffer.EnqueueBatch(name, payloads, maxLen, fate);
      if err != NoError { d := d + items; }
    }
  }
}
