/** Draining the job buffer into Kafka (internal/scheduler/buffer_drainer.go): what one cycle
    moves where, and what a whole run conserves. */
module BufferDrainer {
  import opened Strings
  import opened JobBuffer

  /** decode reads a buffered payload; readable says a message's value is a crawl job. */
  datatype Config = Config(
    decode: string -> Option<Message>, readable: Message -> bool,
    hasRetry: bool, target: int, batch: int, maxLen: int)

  /** Kafka's answer to the batch; on refusal, whether the retry scheduler takes each message. */
  datatype Kafka = Sent | Refused(takes: seq<bool>)

  /** The buffered payloads, oldest first, and what has left the buffer. */
  datatype Flow = Flow(queue: seq<string>, published: seq<Message>, retried: seq<Message>)

  function Decoded(c: Config, ps: seq<string>): (msgs: seq<Message>)
    ensures |msgs| <= |ps|
  {
    if ps == [] then []
    else
      var n := |ps| - 1;
      Decoded(c, ps[..n]) + (if c.decode(ps[n]).Some? then [c.decode(ps[n]).value] else [])
  }

  predicate Takes(c: Config, m: Message, takes: seq<bool>, i: nat)
  {
    c.readable(m) && i < |takes| && takes[i]
  }

  /** The messages dispatchToRetry hands over. */
  function HandedOver(c: Config, msgs: seq<Message>, takes: seq<bool>): seq<Message>
  {
    if msgs == [] then []
    else
      var n := |msgs| - 1;
      HandedOver(c, msgs[..n], takes) + (if Takes(c, msgs[n], takes, n) then [msgs[n]] else [])
  }

  /** The payloads it puts back: those at the indices of the messages it could not hand over. */
  function PutBack(c: Config, msgs: seq<Message>, payloads: seq<string>, takes: seq<bool>): seq<string>
    requires |msgs| <= |payloads|
  {
    if msgs == [] then []
    else
      var n := |msgs| - 1;
      PutBack(c, msgs[..n], payloads, takes) + (if Takes(c, msgs[n], takes, n) then [] else [payloads[n]])
  }

  /** Strictly rising indices below n. */
  predicate Rising(at: seq<nat>, n: nat)
  {
    && (forall i :: 0 <= i < |at| ==> at[i] < n)
    && (forall i, j :: 0 <= i < j < |at| ==> at[i] < at[j])
  }

  /** The payloads that decode give one message each, in order. */
  lemma {:induction false} DecodedExactly(c: Config, ps: seq<string>) returns (at: seq<nat>)
    ensures Rising(at, |ps|) && |at| == |Decoded(c, ps)|
    ensures forall i :: 0 <= i < |at| ==> Some(Decoded(c, ps)[i]) == c.decode(ps[at[i]])
    ensures forall i :: 0 <= i < |ps| ==> (i in at <==> c.decode(ps[i]).Some?)
  {
    at := [];
    if ps != [] {
      var n := |ps| - 1;
      at := DecodedExactly(c, ps[..n]);
      if c.decode(ps[n]).Some? { at := at + [n]; }
    }
  }

  /** Message i goes to the retry scheduler exactly if it is a crawl job and is taken; otherwise the
      payload of its index goes back. Both keep the order. */
  lemma {:induction false} DispatchExactly(c: Config, msgs: seq<Message>, payloads: seq<string>, takes: seq<bool>)
    returns (taken: seq<nat>, kept: seq<nat>)
    requires |msgs| <= |payloads|
    ensures Rising(taken, |msgs|) && Rising(kept, |msgs|)
    ensures forall i :: 0 <= i < |msgs| ==>
              && (i in taken <==> c.readable(msgs[i]) && i < |takes| && takes[i])
              && (i in kept <==> i !in taken)
    ensures |taken| == |HandedOver(c, msgs, takes)| && |kept| == |PutBack(c, msgs, payloads, takes)|
    ensures forall i :: 0 <= i < |taken| ==> HandedOver(c, msgs, takes)[i] == msgs[taken[i]]
    ensures forall i :: 0 <= i < |kept| ==> PutBack(c, msgs, payloads, takes)[i] == payloads[kept[i]]
  {
    taken, kept := [], [];
    if msgs != [] {
      var n := |msgs| - 1;
      taken, kept := DispatchExactly(c, msgs[..n], payloads, takes);
      if c.readable(msgs[n]) && n < |takes| && takes[n] { taken := taken + [n]; } else { kept := kept + [n]; }
    }
  }

  /** How many payloads a cycle pops. */
  function CycleSize(c: Config, backlog: int, len: nat): nat
  {
    var available := c.target - backlog;
    Count(if c.batch < available then c.batch else available, len)
  }

  /** It is the largest number within the buffer, the batch size and the room below the target. */
  lemma CycleSizeIsLargest(c: Config, backlog: int, len: nat, k: nat)
    ensures k <= CycleSize(c, backlog, len) <==> k == 0 || (k <= len && k <= c.batch && k <= c.target - backlog)
  {
  }

  /** Where the payloads of one popped batch go: published, handed to the retry scheduler, or back. */
  datatype Outcome = Outcome(published: seq<Message>, retried: seq<Message>, back: seq<string>)

  function Settled(c: Config, payloads: seq<string>, kafka: Kafka): Outcome
  {
    var msgs := Decoded(c, payloads);
    if msgs == [] then Outcome([], [], [])
    else match kafka
      case Sent => Outcome(msgs, [], [])
      case Refused(takes) =>
        if c.hasRetry then Outcome([], HandedOver(c, msgs, takes), PutBack(c, msgs, payloads, takes))
        else Outcome([], [], payloads)
  }

  /** A batch Kafka took is published and nothing of it comes back; of one it refused nothing is
      published, and without a retry scheduler all of it comes back. A batch with no message in it
      is dropped. */
  lemma SettledMeans(c: Config, payloads: seq<string>, kafka: Kafka)
    ensures var o, msgs := Settled(c, payloads, kafka), Decoded(c, payloads);
            && o.published == (if kafka.Sent? then msgs else [])
            && o.retried == (if kafka.Refused? && c.hasRetry then HandedOver(c, msgs, kafka.takes) else [])
            && o.back == (if kafka.Sent? || msgs == [] then []
                          else if c.hasRetry then PutBack(c, msgs, payloads, kafka.takes) else payloads)
  {
  }

  /** Re-enqueueing what came back; an empty batch is not sent, one that never reaches Redis is lost. */
  function Returned(c: Config, queue: seq<string>, back: seq<string>, fate: Fate): seq<string>
  {
    if back == [] then queue else Enqueued(queue, back, c.maxLen, fate)
  }

  function Cycle(c: Config, f: Flow, n: nat, kafka: Kafka, fate: Fate): Flow
    requires n <= |f.queue|
  {
    var o := Settled(c, f.queue[..n], kafka);
    Flow(Returned(c, f.queue[n..], o.back, fate), f.published + o.published, f.retried + o.retried)
  }

  lemma EmptyCycle(c: Config, f: Flow, kafka: Kafka, fate: Fate)
    ensures Cycle(c, f, 0, kafka, fate) == f && Decoded(c, f.queue[..0]) == []
  {
    assert Settled(c, f.queue[..0], kafka) == Outcome([], [], []);
    assert f.published + [] == f.published && f.retried + [] == f.retried;
  }

  lemma PoppedFrom(list: seq<string>, k: nat)
    requires k <= |list|
    ensures forall p :: p in Queue(list)[..k] ==> p in list
  {
    assert forall p :: p in Queue(list) ==> p in list;
  }

  datatype DrainError = Completed | BacklogUnknown | LengthUnknown | PopFailed | NotPublished

  class BufferDrainer {
    const buffer: JobBuffer
    const config: Config
    var published: seq<Message>
    var retried: seq<Message>

    constructor (buffer: JobBuffer, config: Config)
      ensures this.buffer == buffer && this.config == config && published == [] == retried
    {
      this.buffer, this.config, this.published, this.retried := buffer, config, [], [];
    }

    function FlowOf(name: string): Flow
      reads this, buffer
    {
      Flow(Queue(buffer.ListOf(name)), published, retried)
    }

    /** One topic of one cycle. backlog is None when Kafka cannot tell its lag. */
    method DrainOnce(name: string, backlog: Option<int>, lengthFails: bool, popped: Fate, kafka: Kafka, fate: Fate)
      returns (err: DrainError)
      requires name != "" && "" !in buffer.ListOf(name)
      modifies this, buffer
      ensures backlog.None? ==> err == BacklogUnknown
      ensures backlog.Some? && backlog.value < config.target && lengthFails ==> err == LengthUnknown
      ensures err == BacklogUnknown || err == LengthUnknown ==> FlowOf(name) == old(FlowOf(name))
      ensures backlog.Some? && backlog.value >= config.target ==> err == Completed && FlowOf(name) == old(FlowOf(name))
      ensures backlog.Some? && !lengthFails ==>
                var n := CycleSize(config, backlog.value, |old(buffer.ListOf(name))|);
                Drained(old(FlowOf(name)), FlowOf(name), n, popped, kafka, fate, err)
    {
      err := Completed;
      if backlog.None? { return BacklogUnknown; }
      var available := config.target - backlog.value;
      EmptyCycle(config, FlowOf(name), kafka, fate);
      if available <= 0 { return; }
      if lengthFails { return LengthUnknown; }
      var len := |buffer.ListOf(name)|;
      if len == 0 { return; }
      var n := available;
      if config.batch < n { n := config.batch; }
      if len < n { n := len; }
      assert Count(n, len) == CycleSize(config, backlog.value, len);
      err := Drain(name, n, popped, kafka, fate);
    }

    /** What popping n payloads and settling them comes to. A lost reply of the pop ends the cycle,
        and if the pop had run, the payloads are gone. */
    ghost predicate Drained(before: Flow, after: Flow, n: int, popped: Fate, kafka: Kafka, fate: Fate, err: DrainError)
    {
      var k := Count(n, |before.queue|);
      if n > 0 && popped.Lost? then
        err == PopFailed && after == (if popped.ran == 0 then before else before.(queue := before.queue[k..]))
      else
        && after == Cycle(config, before, k, kafka, fate)
        && err == (if kafka.Refused? && Decoded(config, before.queue[..k]) != [] then NotPublished else Completed)
    }

    /** Steps 3 and 4 of the cycle. */
    method Drain(name: string, n: int, popped: Fate, kafka: Kafka, fate: Fate) returns (err: DrainError)
      requires name != "" && "" !in buffer.ListOf(name)
      modifies this, buffer
      ensures Drained(old(FlowOf(name)), FlowOf(name), n, popped, kafka, fate, err)
    {
      var payloads, failed := PopBatch(name, n, popped);
      if failed { return PopFailed; }
      EmptyCycle(config, old(FlowOf(name)), kafka, fate);
      if |payloads| == 0 { return Completed; }
      err := Settle(name, payloads, kafka, fate);
    }

    method PopBatch(name: string, n: int, popped: Fate) returns (payloads: seq<string>, failed: bool)
      requires name != "" && "" !in buffer.ListOf(name)
      modifies buffer
      ensures failed <==> n > 0 && popped.Lost?
      ensures "" !in payloads
      ensures var q := Queue(old(buffer.ListOf(name)));
              var k := Count(n, |q|);
              && payloads == (if failed then [] else q[..k])
              && Queue(buffer.ListOf(name)) == (if failed && popped.ran == 0 then q else q[k..])
    {
      PoppedFrom(buffer.ListOf(name), Count(n, |buffer.ListOf(name)|));
      var err;
      payloads, err := buffer.DrainJobs(name, n, popped);
      failed := !err.NoError?;
    }

    /** Publish a popped batch, and on refusal send its messages to the retry scheduler or back. */
    method Settle(name: string, payloads: seq<string>, kafka: Kafka, fate: Fate) returns (err: DrainError)
      requires name != "" && "" !in payloads
      modifies this, buffer
      ensures var o := Settled(config, payloads, kafka);
              FlowOf(name) == Flow(Returned(config, Queue(old(buffer.ListOf(name))), o.back, fate),
                                   old(published) + o.published, old(retried) + o.retried)
      ensures err == if kafka.Refused? && Decoded(config, payloads) != [] then NotPublished else Completed
    {
      var msgs := DecodeAll(payloads);
      if |msgs| == 0 { return Completed; }
      match kafka {
        case Sent =>
          published := published + msgs;
          err := Completed;
        case Refused(takes) =>
          if config.hasRetry {
            DispatchToRetry(name, msgs, payloads, takes, fate);
          } else {
            var _ := buffer.EnqueueBatch(name, payloads, config.maxLen, fate);
          }
          err := NotPublished;
      }
    }

    method DecodeAll(payloads: seq<string>) returns (msgs: seq<Message>)
      ensures msgs == Decoded(config, payloads)
    {
      msgs := [];
      var i := 0;
      while i < |payloads|
        invariant 0 <= i <= |payloads| && msgs == Decoded(config, payloads[..i])
      {
        assert payloads[..i + 1][..i] == payloads[..i];
        var m := config.decode(payloads[i]);
        if m.Some? { msgs := msgs + [m.value]; }
        i := i + 1;
      }
      assert payloads[..i] == payloads;
    }

    method DispatchToRetry(name: string, msgs: seq<Message>, payloads: seq<string>, takes: seq<bool>, fate: Fate)
      requires name != "" && |msgs| <= |payloads| && "" !in payloads
      modifies this`retried, buffer
      ensures retried == old(retried) + HandedOver(config, msgs, takes)
      ensures Queue(buffer.ListOf(name)) ==
                Returned(config, Queue(old(buffer.ListOf(name))), PutBack(config, msgs, payloads, takes), fate)
    {
      var failedPayloads: seq<string> := [];
      var i := 0;
      while i < |msgs|
        invariant 0 <= i <= |msgs|
        invariant failedPayloads == PutBack(config, msgs[..i], payloads, takes) && "" !in failedPayloads
        invariant retried == old(retried) + HandedOver(config, msgs[..i], takes)
        modifies this`retried
      {
        assert msgs[..i + 1][..i] == msgs[..i];
        if config.readable(msgs[i]) && i < |takes| && takes[i] {
          retried := retried + [msgs[i]];
        } else if i < |payloads| {
          failedPayloads := failedPayloads + [payloads[i]];
        }
        i := i + 1;
      }
      assert msgs[..i] == msgs;
      if |failedPayloads| > 0 {
        var _ := buffer.EnqueueBatch(name, failedPayloads, config.maxLen, fate);
      }
    }
  }
}
