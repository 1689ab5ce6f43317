# Verification of the delivery and coordination layer

This project models the part of the issue tracker that moves crawl jobs between Kafka, Redis and
the workers, and proves what every step and every run of it keeps. Redis is explicit state: maps,
a score-ordered set, a list, a clock with expiry. Where several processes meet, each Redis command,
Kafka call, channel or atomic operation is one step of a state machine, and a theorem about a run
holds for every interleaving of the steps of any number of clients. Where the source is an object
whose methods update its fields, the model is a class whose methods are proved against the same
functions the machines step by. Where the source parses or prints text, the model is proved against
the grammar of that text.

Check everything with `dafny verify dfyconfig.toml`.

## Contents

| File | What it models |
|---|---|
| TokenLocks, LeaderLock, Semaphore, StageGate | SET-NX locks with tokens and TTLs, the leader lock's process-local token, the compare-and-swap semaphore, and the stage gate composed of them |
| ZSet, PriorityQueue, PriorityQueueSafety | the priority queue's push and pop protocols over a sorted set and two key spaces |
| RetryQueue, RetryPolling | the delayed retry queue: enqueue, peek, publish, acknowledge |
| SeenCache, Dedup, Publisher | publisher deduplication: marker, guard, bounded cache, the two publish paths |
| JobBuffer, BufferDrainer, BufferFlow, DrainerLag | the LIST used as a bounded FIFO, its producer, the drainer, whole runs of both |
| WorkerPool | the consumer pool's poll goroutine, channel, workers and shutdown |
| Scheduler | reconciliation of schedule entries with goroutines |
| CircuitBreaker | the per-source circuit breaker |
| SlidingWindow | the failure counter and the call budget on a pruned, expiring sorted set |
| Resolver | the sorted host/path table and the resolver chain |
| ExtractJson | the scanner that finds a JSON object in an agent's output |
| AgentWorker | admission of sessions and shutdown of an agent worker |
| TomlOverrides, TomlReader | the `-c key=value` printer and the reader that inverts it |
| Strings, Sets | orders and counting used by the others |

## Hypotheses

They are visible in the statements, because without them the claims are false.

- Lock tokens are fresh, and no clock goes backwards. Redis commands and Lua scripts are atomic.
- RetryQueue.AtLeastOnce assumes that no poller is busy with a job when an enqueue of it completes, and
  that the job's member is still in the sorted set then. SurvivesExactly proves that this is exactly
  what an enqueue needs; OneStepEnqueuesAreUndisturbed, that the first one-step enqueue of a job
  always has it.
- DrainerLag.LagNeverPassesTarget assumes that an instance inside a drain cycle still holds the
  leader lock (OverrunOvershoots is a run in which it does not), that lag readings are true, and that
  the drainers are the topic's only producers. So a batch that Kafka took in part and that goes
  through the retry scheduler as well is outside it: the retry path is another producer.
- BufferFlow.MessagesAreConserved assumes that every enqueued payload decodes (PairingExact says
  why) and that a batch Kafka refuses has written nothing; PublishedInOrder assumes one batch in hand
  at a time, a healthy Kafka and nothing dropped.
- SlidingWindow.AnswersAreExact assumes that no earlier call on the key used a smaller span.
- Publisher.FilterAdmits assumes that one pass over a batch takes less than the marker's lifetime.
- Scheduler.OneGoroutinePerKey needs distinct keys among the entries given to Start, and says so
  as an equivalence. So do CircuitBreaker.ProbesExact, Dedup.CoveredExactly and
  AgentWorker.AddBesideWaitExactly with their conditions.
- PriorityQueueSafety.Conservation assumes distinct ids; HeadersTravelWithTheirPayload does not.
- An encoded message and a stored job are never the empty string.
- Digests of different payloads differ where a lemma says so, and no digest is empty.

## Where the code differs from its comments or from the expected law

The model follows the code.

- pkg/redis/retry_queue.go:51-55 calls a ZADD without its SET harmless. A poller that looks in
  between takes the id for stale and removes it after the enqueue has succeeded: the job is lost
  (SplitEnqueueLosesTheJob, for every job).
- pkg/redis/retry_queue.go:62-80 promises at-least-once delivery. The ack removes by id alone
  (pkg/redis/retry_queue.go:164-175), so a job enqueued again while a poller forwards its earlier
  enqueue is acked away with it (ReenqueueUnderAckIsLost). A reschedule writes its older payload over
  a newer one in the same way. The exact condition is SurvivesExactly.
- internal/bus/seen_cache.go:9-13 says that the cache cannot outlive the marker's judgement. A
  refusal remembered just before the marker expires suppresses the URL after it
  (CacheCanOutliveMarker, a run from the start). Every suppression falls under a held marker exactly
  when the marker has the whole cache TTL to run at the moment of remembering (CoveredExactly).
- internal/bus/seed.go:120-134 undoes a failed publish with an unowned delete. It removes the
  publisher's own marker exactly while that has neither expired nor been released, and otherwise
  whatever marker another publisher has set (UndoTakesOwnExactly, LateUndoTakesAnothers).
- pkg/resilience/circuit_breaker.go:153-191 does not know whose outcome it records. The outcome of a
  request admitted while closed ends a half-open phase like the probe's own: a late failure lets a
  second probe out (LateFailureDoublesProbe), a late success closes the breaker on its probe. The
  promise of a single probe holds in exactly the runs without such an outcome (ProbesExact). A probe
  that never records one, as when internal/processor/fetcher/worker/pool.go:533-537 returns early,
  leaves the breaker half-open until some other request does (OneProbeAtATime).
- pkg/queue/buffering_producer.go:131-138 and :188-199 publish directly whatever Redis reported as
  failed. The messages are doubled exactly when the reply was lost after the LPUSH ran
  (CopiesExactly).
- internal/bus/seen_cache.go:109-137 can evict the URL it has just added; NewestSurvivesExactly gives
  the exact condition.
- internal/scheduler/buffer_drainer.go:296 and :363 pair messages and payloads by index. The pairing is
  right, for every answer of the retry scheduler, if and only if no unreadable payload of the batch
  precedes a readable one (PairingExact); otherwise a readable job can be lost (MispairedJobIsLost).
- pkg/queue/priority_zset.go comments say that the trim drops the oldest of low priority and that the
  factor is 1e10. The code drops the highest scores, that is the newest of low priority, and the
  factor is 1e13.
- internal/scheduler/scheduler.go:121-131 spawns a second goroutine for a repeated key, which no
  Refresh can find again (OneGoroutinePerKey). Keys of different entries can coincide when a crawler
  name contains a bar (KeysClashExactly).
- pkg/agent/codex/mcp.go:120-141 leaves control characters other than tab, line feed and carriage
  return unescaped. TOML v1.0.0 (section "String") forbids them in basic strings, so a strict reader
  recovers a configuration exactly when it has none (RoundTrip).
- pkg/agent/codex/worker.go:349-375 says that no wg.Add follows the critical section of Stop before its
  Wait returns. One does exactly when a session is admitted while the wait of a Stop whose removal
  failed is still pending (AddBesideWaitExactly, ForcedStopMeetsItsWaiter).
- pkg/agent/codex/worker.go:611-652 returns the object following a prefix exactly when the prefix leaves
  the scanner outside any brace and string (ExtractExactly); an odd quote in the prose before the
  object hides it.

## Model

| member | source | states |
|---|---|---|
| TokenLocks.AtMostOneHolder | pkg/redis/lock.go:75-109 | in every run, two acquisitions of one key that are unreleased and within their TTL are the same |
| TokenLocks.AcquireExactly | pkg/redis/lock.go:75-93 | SET NX succeeds exactly when no acquisition of the key is in force, and changes no other acquisition |
| TokenLocks.ReleaseExactly | pkg/redis/lock.go:99-109 | a compare-and-delete acts exactly while its own acquisition is in force and never ends another one |
| TokenLocks.ExpiresExactly | pkg/redis/lock.go:75-93 | time alone ends an unreleased acquisition, and frees its key, exactly when its TTL is over |
| TokenLocks.AlwaysConsistent | pkg/redis/lock.go:75-109 | Redis holds exactly the acquisitions in force, with their expiry times |
| TokenLocks.ProcessingLock.constructor | internal/locks/processing_lock.go:99-104 | a non-positive TTL becomes ten minutes |
| TokenLocks.ProcessingLock.Acquire | internal/locks/processing_lock.go:109-114 | the token error, the Redis error, the refusal and the acquisition, each with the new state of Redis |
| TokenLocks.ProcessingLock.Release | internal/locks/processing_lock.go:121-137 | empty token is a no-op; not-owned is reported exactly when the token does not hold the key |
| TokenLocks.ProcessingKeyInjective | internal/locks/processing_lock.go:73-76 | different stage and URL pairs never share a lock key |
| LeaderLock.RefinesTokenLocks | pkg/redis/leader_lock.go:94-147 | whatever the goroutines of all instances do, Redis sees a run of the token lock |
| LeaderLock.AtMostOneLeader | pkg/redis/leader_lock.go:94-147 | in every interleaving at most one instance leads |
| LeaderLock.LateReleaseIsHarmless | pkg/redis/leader_lock.go:132-147 | a release that runs after expiry leaves the new leader leading |
| LeaderLock.LeaderLocker.TryAcquire | pkg/redis/leader_lock.go:94-123 | refuses while a token is held locally; otherwise the outcome and the local token match what Redis did |
| LeaderLock.LeaderLocker.Release | pkg/redis/leader_lock.go:132-147 | always clears the local token and deletes the key only with that token |
| Semaphore.PermitsAccountedFor | internal/locks/semaphore.go:57-82 | permits of the underlying semaphore equal inFlight plus goroutines between the two operations of Acquire and of Release, within capacity |
| Semaphore.WeightedSemaphore.Acquire | internal/locks/semaphore.go:57-63 | succeeds exactly below capacity and counts one |
| Semaphore.WeightedSemaphore.Release | internal/locks/semaphore.go:65-82 | gives back one permit, or nothing when none is out |
| StageGate.NoPermitLostOrDoubled | internal/locks/stage_gate.go:102-152 | no call takes or returns more than one permit, on lock error, skip, or repeated release; none is lost |
| StageGate.OneWorkerPerUrl | internal/locks/stage_gate.go:102-152 | two calls inside a stage on one URL, both within the lock's TTL, are the same call |
| StageGate.Gate.Acquire | internal/locks/stage_gate.go:102-152 | a ticket exactly when a permit and the lock were free; every other path returns the permit |
| StageGate.Ticket.Release | internal/locks/stage_gate.go:121-151 | returns permit and lock the first time only |
| PriorityQueue.PriorityRecovered | pkg/queue/priority_zset.go:392-404 | a priority from 1 to 3 comes back from the score as itself and any other as 2, exactly for arrivals in [0, 1e13) ms |
| PriorityQueue.ScoreOrder | pkg/queue/priority_zset.go:392-398 | score order is priority first, arrival second, where a priority outside 1 to 3 counts as 2 |
| PriorityQueue.PrefixCheckExact | pkg/queue/priority_zset.go:165-186 | the prefix check rejects exactly the prefixes under which some entry key is some header key |
| PriorityQueue.NewQueueAccepts | pkg/queue/priority_zset.go:149-186 | the constructor refuses exactly an empty key or prefix and prefixes under which some entry key is some header key; which prefix and bound an accepted queue has |
| PriorityQueueSafety.Conservation | pkg/queue/priority_zset.go:212-379 | in every interleaving each added push is in exactly one of: the set, one pop, trimmed; and its pop returns exactly its payload, its headers and its priority, or 2 for one outside 1 to 3 |
| PriorityQueueSafety.PopTakesLeast | pkg/queue/priority_zset.go:293-320 | a pop takes the least of all waiting pushes by priority, arrival, id |
| PriorityQueueSafety.HeadersTravelWithTheirPayload | pkg/queue/priority_zset.go:336-367 | with reused ids and old-version pushers, returned headers were pushed with a payload of the returned payload's digest |
| PriorityQueueSafety.OnePushCarriedBoth | pkg/queue/priority_zset.go:336-367 | without digest collisions one push carried both the payload and the headers returned |
| PriorityQueueSafety.AlwaysQueueInv | pkg/queue/priority_zset.go:212-379 | every command of every run keeps places, contents and key ownership consistent |
| PriorityQueueSafety.MessageMeans | pkg/queue/priority_zset.go:450-467 | the message has the popped key and payload, the priority of the score as its header whatever was pushed there, and every other stored header |
| PriorityQueueSafety.MessageCarriesPriority | pkg/queue/priority_zset.go:392-467 | a member pushed with priority 1, 2 or 3 is fetched with that number in its header, any other with 2 |
| PriorityQueueSafety.ReadingMeans | pkg/queue/priority_zset.go:325-367 | headers are read exactly when they were stored for the payload read, or without a digest |
| PriorityQueueSafety.TrimBounds | pkg/queue/priority_zset.go:254-257 | a trim that runs leaves at most the bound, the lowest members, and nothing dropped while there is room |
| PriorityQueueSafety.PriorityZSetQueue.PushWithHeaders | pkg/queue/priority_zset.go:212-259 | argument errors change nothing; a broken pipeline leaves exactly its first commands behind; a complete one its payload, exactly its headers and its member, with at most the bound of the lowest members unless the trim failed |
| PriorityQueueSafety.PriorityZSetQueue.Pop | pkg/queue/priority_zset.go:293-379 | takes the minimum with its strings and deletes exactly those; a failed read leaves the queue as it was unless the restore fails too |
| PriorityQueueSafety.PriorityZSetQueue.FetchMessage | pkg/queue/priority_zset.go:436-470 | whatever command fails in whichever pop: the first member in queue order whose payload exists, with the priority header from the score; or the error of a failed read, with the queue restored or one member short |
| ZSet.TrimIsPrefix | pkg/queue/priority_zset.go:254-257 | trimming keeps at most the bound, a prefix of the order, and drops nothing within the bound |
| ZSet.MinExists | pkg/queue/priority_zset.go:293-310 | a non-empty set has the minimum BZPOPMIN answers |
| RetryQueue.AtLeastOnce | internal/bus/retry.go:272-409 | until a job is enqueued again, its last enqueue is queued with exactly the payload it sent, or that payload was handed to Kafka, or given up as unreadable, through any crashes, refusals, failed acks and pollers |
| RetryQueue.SurvivesExactly | pkg/redis/retry_queue.go:62-88 | in any reached state, an enqueue survives whatever follows, until the job is enqueued again, if and only if no poller is busy with the job when it completes and its member is in the sorted set |
| RetryQueue.LosesExactly | pkg/redis/retry_queue.go:145-175 | which single steps lose a job's last enqueue: a stale-id removal, an ack or a rescheduling SET belonging to an earlier one, the SET of an enqueue whose member is gone |
| RetryQueue.KeptExactly | pkg/redis/retry_queue.go:62-88 | a run keeps every enqueue of a job exactly when it contains no such step |
| RetryQueue.ReenqueueUnderAckIsLost | internal/bus/retry.go:384-409 | for every job and two payloads a run in which the second enqueue is acked away with the first |
| RetryQueue.OneStepEnqueuesAreUndisturbed | pkg/redis/retry_queue.go:41-60 | where enqueues run as one step, the first enqueue of a job meets the condition of SurvivesExactly in every run |
| RetryQueue.SplitEnqueueLosesTheJob | pkg/redis/retry_queue.go:41-60 | for every job there is a run in which it is enqueued and then nowhere |
| RetryQueue.AlwaysGenuine | internal/bus/retry.go:322-399 | everything stored, in a poller's hands or settled is what its enqueue sent; only readable payloads reach Kafka and only unreadable ones are given up |
| RetryPolling.FoundExactly | pkg/redis/retry_queue.go:121-157 | a peek hands out exactly the due ids that have an entry |
| RetryPolling.RoundAdvances | internal/bus/retry.go:272-310 | a due job not handed out has a full batch fewer ahead of it after the poll |
| RetryPolling.NoStarvation | internal/bus/retry.go:272-310 | a due job with k at or before it is handed out within ceil(k / batch) polls, whatever Kafka answers |
| RetryPolling.HandedOutIsForwarded | internal/bus/retry.go:296-356 | for a job in the poll's answer Forward is called with its stored payload exactly when that is readable |
| RetryPolling.RepublishedExactly | internal/bus/retry.go:322-409 | for every list of distinct due jobs and any outcomes, what is left of each job and of every other one |
| RetryPolling.RetryScheduler.RepublishItem | internal/bus/retry.go:322-399 | one due job: forwarded exactly if readable, then acked or rescheduled |
| RetryPolling.RetryScheduler.EnqueueRetry | pkg/redis/retry_queue.go:41-60 | argument errors change nothing; otherwise membership and entry are both written |
| RetryPolling.RetryScheduler.PeekDueRetries | pkg/redis/retry_queue.go:89-157 | in queue order exactly the jobs that have an entry, stale ids removed, every fault reported without loss |
| RetryPolling.RetryScheduler.AckRetry | pkg/redis/retry_queue.go:164-175 | removes membership and entry, or fails after the first or neither; nothing else changes |
| RetryPolling.RetryScheduler.PollOnce | internal/bus/retry.go:272-310 | each due job is settled by its own outcome: refused and stored, it is queued at the new time with its payload; refused and not stored, as it was; accepted or unreadable, gone or as the failed ack left it; other jobs untouched, stale ids out, and Forward called in queue order with exactly the readable ones |
| SeenCache.AddedFits | internal/bus/seen_cache.go:109-137 | an Add keeps the size bound and invents no entry |
| SeenCache.AddedExactly | internal/bus/seen_cache.go:109-137 | a known URL or one with room only gets its time; otherwise exactly the first live key of the order is forgotten, and what the order is afterwards |
| SeenCache.NewestSurvivesExactly | internal/bus/seen_cache.go:109-137 | the URL just added is remembered exactly unless an earlier life of it stands first in order while the cache is full |
| SeenCache.NewestCanBeEvicted | internal/bus/seen_cache.go:101-137 | a concrete run in which the newest Add is evicted |
| SeenCache.SeenCache.Has | internal/bus/seen_cache.go:90-106 | true exactly within the TTL of the last Add; an expired entry is dropped |
| SeenCache.SeenCache.Add | internal/bus/seen_cache.go:109-137 | the eviction and compaction loops compute Added and keep the bound |
| Dedup.AdmissionsAreSpaced | internal/bus/chain.go:180-248 | two admissions of a URL are at least the first one's marker TTL apart unless one failed open or the marker was released between |
| Dedup.SuppressionIsJustified | internal/bus/chain.go:196-222 | every suppression goes back to one refusal of the same publisher, which found the marker held; it comes less than the cache TTL after that was remembered |
| Dedup.RememberedByItsFinder | internal/bus/chain.go:196-222 | the goroutine that adds a URL to the cache is the one that found its marker held |
| Dedup.AskExactly | internal/bus/chain.go:180-224 | what one question to Redis leaves in the markers and answers, with the lifetime of the URL's kind |
| Dedup.CategoriesSkipTheCache | internal/bus/chain.go:230-248 | category URLs are neither looked up in the cache nor remembered; others are suppressed exactly while remembered |
| Dedup.CoveredExactly | internal/bus/seen_cache.go:9-13 | as long as nobody deletes the marker, all suppressions by what is remembered now fall under a held marker if and only if the marker has the whole cache TTL to run |
| Dedup.CacheCanOutliveMarker | internal/bus/seen_cache.go:90-106 | for every URL a run from the start with a suppression after the marker has expired |
| Dedup.UndoTakesOwnExactly | internal/bus/seed.go:120-134 | while a marker is held, the undo of a failed seed takes its own if and only if that has not expired and was not released |
| Dedup.LateUndoTakesAnothers | internal/bus/seed.go:120-134 | for every URL a run in which it takes another publisher's and a third publish passes at once |
| Publisher.IngestionKeyInjective | internal/locks/ingestion_marker.go:126-129 | different URLs have different marker keys |
| Publisher.IngestionMarker.AcquireWithTTL | internal/locks/ingestion_marker.go:102-110 | SET NX with the requested or the default lifetime, and its errors |
| Publisher.IngestionMarker.Invalidate | internal/locks/ingestion_marker.go:115-120 | removes the marker whoever set it |
| Publisher.PipelineGuard.CheckAndAcquire | internal/locks/pipeline_guard.go:63-76 | the marker gets the lifetime of the target type; any error is passed on |
| Publisher.FilterAdmits | internal/bus/chain.go:180-224 | whatever the clock reads for each URL, a pass without errors that is shorter than the marker's lifetime lets each URL through at most once, only if its marker was free by its end, always if it was free and unknown to the cache at its start |
| Publisher.PassesExactly | internal/bus/chain.go:180-224 | for any replies a pass lets through, in order, exactly the URLs that the cache does not know at their turn and that no answer of Redis reports held; an error lets a URL through |
| Publisher.RefusalIsRemembered | internal/bus/chain.go:196-222 | a URL found held is dropped without asking Redis until the cache TTL has passed, while the cache has room |
| Publisher.ChainPublisher.AcquireViaGuard | internal/bus/chain.go:180-248 | the loop computes FilterAll on markers and cache, with its own clock readings for each URL; URLs after cancellation pass |
| Publisher.SeedPublisher.PublishSeed | internal/bus/seed.go:47-134 | with no other caller in between, the result and the markers for every outcome; a failed build or send deletes the marker exactly when this call had set it |
| JobBuffer.PushRefinesAppend | pkg/redis/job_buffer.go:57-83 | LPUSH and LTRIM implement append to a bounded FIFO that forgets its oldest |
| JobBuffer.PopRefinesTake | pkg/redis/job_buffer.go:99-122 | RPOP COUNT takes the oldest in order |
| JobBuffer.JobBuffer.EnqueueBatch | pkg/redis/job_buffer.go:57-83 | the first empty payload is refused before anything is sent; a lost pipeline leaves the effect of the commands that ran |
| JobBuffer.JobBuffer.DrainJobs | pkg/redis/job_buffer.go:99-122 | returns and removes the n oldest payloads, or reports why not; a reply lost after the RPOP ran loses them |
| JobBuffer.RoutingIsAPartition | pkg/queue/buffering_producer.go:154-209 | each message is buffered under its own label or published directly, none lost or doubled |
| JobBuffer.RouteOfOne | pkg/queue/buffering_producer.go:105-114 | a message of the normal or low crawl topic that encodes goes to that topic's buffer, every other one is published directly |
| JobBuffer.CopiesExactly | pkg/queue/buffering_producer.go:117-209 | of a published batch nothing is lost, and exactly those messages are both buffered and published directly whose enqueue lost its reply after the LPUSH ran |
| JobBuffer.CopiesOfOne | pkg/queue/buffering_producer.go:154-209 | the same message by message: how often it is published directly and how often its enqueue ran, by topic, encoding and fate |
| JobBuffer.OneIsABatch | pkg/queue/buffering_producer.go:117-209 | Publish of a message publishes directly what PublishBatch of it alone does |
| JobBuffer.BufferingProducer.Publish | pkg/queue/buffering_producer.go:117-142 | the message is buffered under its label or published directly, once in all, and twice exactly when it was buffered and the reply was lost after the LPUSH ran |
| JobBuffer.BufferingProducer.PublishBatch | pkg/queue/buffering_producer.go:154-209 | both buffers and the direct batch, for either map order and any fate of the two enqueues |
| BufferDrainer.BufferDrainer.DrainOnce | internal/scheduler/buffer_drainer.go:242-351 | what one cycle moves between buffer, Kafka and retry scheduler for any fate of the pop and of the re-enqueue, and each earlier error with nothing moved |
| BufferDrainer.CycleSizeIsLargest | internal/scheduler/buffer_drainer.go:257-283 | a cycle pops the largest number within the buffer, the batch size and the room below the target |
| BufferDrainer.DispatchExactly | internal/scheduler/buffer_drainer.go:363-405 | message i is handed over exactly if it is a crawl job and is taken, otherwise the payload at its index is put back, both in order |
| BufferDrainer.DecodedExactly | internal/scheduler/buffer_drainer.go:287-302 | the payloads that decode give one message each, in order |
| BufferDrainer.BufferDrainer.Drain | internal/scheduler/buffer_drainer.go:282-303 | the pop and the decoding; a reply lost after the pop ran loses the popped jobs |
| BufferDrainer.BufferDrainer.Settle | internal/scheduler/buffer_drainer.go:303-340 | a refused batch goes to the retry scheduler or back to the buffer |
| BufferDrainer.BufferDrainer.DispatchToRetry | internal/scheduler/buffer_drainer.go:363-414 | what is handed over and what is put back, index by index |
| BufferFlow.MessagesAreConserved | internal/scheduler/buffer_drainer.go:242-414 | in every interleaving of producers and drainers each message was enqueued as often as it is buffered, in hand, published, handed to retry, trimmed, or lost in a pop or re-enqueue |
| BufferFlow.PublishedInOrder | internal/scheduler/buffer_drainer.go:242-351 | with a healthy Kafka and no overflow the messages leave in the order they came |
| BufferFlow.PairingExact | internal/scheduler/buffer_drainer.go:294-296 | the put-back payloads belong to the failed messages, for every answer of the scheduler, if and only if no unreadable payload precedes a readable one |
| BufferFlow.MispairedJobIsLost | internal/scheduler/buffer_drainer.go:363-405 | a batch whose readable job ends up nowhere |
| DrainerLag.LagNeverPassesTarget | internal/scheduler/buffer_drainer.go:206-308 | with any number of instances under the leader lock no topic's lag passes the target unless it started there |
| DrainerLag.OverrunOvershoots | internal/scheduler/buffer_drainer.go:206-308 | a run in which a cycle outlives its lock and the lag ends at twice the target |
| WorkerPool.NeverPanics | internal/workerpool/pool.go:147-210 | no send or close hits a closed channel, and a closed channel means poll has returned |
| WorkerPool.EachMessageInOnePlace | internal/workerpool/pool.go:189-224 | every fetched message is handled once, in one worker's hands, in the channel, in poll's hands, or the one dropped |
| WorkerPool.GracefulDrainHandlesAll | internal/workerpool/pool.go:147-182 | after a graceful drain every dispatched message was handled exactly once and at most the last fetched one was not dispatched |
| WorkerPool.ReceivedInOrder | internal/workerpool/pool.go:100-108 | the channel holds at most twice the worker count, and workers receive in fetch order without a gap |
| WorkerPool.PollEndsOnlyWhenCancelled | internal/workerpool/pool.go:189-210 | in every run poll returns only once its context is cancelled, and a failed fetch before that changes nothing |
| WorkerPool.ConsumerPool.constructor | internal/workerpool/pool.go:90-108 | a non-positive worker count becomes one |
| WorkerPool.ConsumerPool.FetchMessage | internal/workerpool/pool.go:195-202 | a fetched message is in poll's hands; a failed fetch ends poll exactly when the context is cancelled and changes nothing otherwise |
| WorkerPool.ConsumerPool.Select | internal/workerpool/pool.go:204-209 | the select between the send and cancellation: sent, abandoned or blocked, and exactly when |
| WorkerPool.ConsumerPool.Next | internal/workerpool/pool.go:216-224 | one receive of the range loop |
| WorkerPool.ConsumerPool.CloseJobs | internal/workerpool/pool.go:151-157 | the channel is closed after poll has returned |
| WorkerPool.ConsumerPool.AwaitDrain | internal/workerpool/pool.go:159-175 | graceful only when every worker has returned |
| Scheduler.RefreshReconciles | internal/scheduler/scheduler.go:249-301 | after a refresh exactly the desired entries with positive interval run, unchanged ones on their old goroutine, all others on new ones, for every map order |
| Scheduler.RepeatedRefreshIsIdle | internal/scheduler/scheduler.go:249-301 | a second refresh with the same entries changes nothing |
| Scheduler.OneGoroutinePerKey | internal/scheduler/scheduler.go:121-131 | after any refreshes the live goroutines are one per running key if and only if Start was given distinct keys |
| Scheduler.DesiredIsLast | internal/scheduler/scheduler.go:257-260 | of entries with one key the last is desired |
| Scheduler.DesiredFromEntries | internal/scheduler/scheduler.go:257-260 | every entry's key is desired, and what is desired for a key is an entry with that key |
| Scheduler.StartRunsEach | internal/scheduler/scheduler.go:121-131 | Start runs every entry with a positive interval on its own snapshot unless a later one has its key |
| Scheduler.KeysClashExactly | internal/scheduler/scheduler.go:77-79 | exactly which pairs of crawler names can share a key for different entries |
| Scheduler.SameKeySameEntry | internal/scheduler/scheduler.go:303-310 | with bar-free names, same key and same lifecycle fields mean the same entry |
| Scheduler.Scheduler.Start | internal/scheduler/scheduler.go:121-131 | the loop spawns what Started says |
| Scheduler.Scheduler.Refresh | internal/scheduler/scheduler.go:249-301 | the two loops compute Refreshed; a failed resolve changes nothing |
| CircuitBreaker.CountsWhileClosed | pkg/resilience/circuit_breaker.go:117-191 | half-open means that the request admitted last is a probe without an outcome; while closed the counter is the failures since the last success, below the limit |
| CircuitBreaker.ProbesExact | pkg/resilience/circuit_breaker.go:117-191 | a probe is out exactly while half-open, and only one, throughout a run if and only if no request admitted before the probe records its outcome while half-open |
| CircuitBreaker.LateFailureDoublesProbe | pkg/resilience/circuit_breaker.go:184-190 | a run that ends with two probes out |
| CircuitBreaker.LateSuccessCloses | pkg/resilience/circuit_breaker.go:153-163 | in any reached state a late success closes the breaker with its probe still out |
| CircuitBreaker.AdmitsExactly | pkg/resilience/circuit_breaker.go:117-149 | a request passes exactly while closed, or as the one probe OpenTimeout after the breaker opened |
| CircuitBreaker.TripsExactly | pkg/resilience/circuit_breaker.go:168-182 | it opens on exactly the failure that completes the limit |
| CircuitBreaker.ModeChangesExactly | pkg/resilience/circuit_breaker.go:117-191 | in every run what the next call makes of the mode, open, half-open or closed |
| CircuitBreaker.ProbesAreSpaced | pkg/resilience/circuit_breaker.go:117-149 | while not closed, admissions are OpenTimeout apart from the opening and from each other |
| CircuitBreaker.OneProbeAtATime | pkg/resilience/circuit_breaker.go:136-191 | once half-open it admits nothing and stays so exactly until any request without an outcome, probe or not, records one |
| CircuitBreaker.CircuitBreaker.Allow | pkg/resilience/circuit_breaker.go:117-149 | the answer and the new state |
| CircuitBreaker.CircuitBreaker.RecordSuccess | pkg/resilience/circuit_breaker.go:153-163 | clears the counter and closes a half-open breaker |
| CircuitBreaker.CircuitBreaker.RecordFailure | pkg/resilience/circuit_breaker.go:168-191 | counts while closed, reopens while half-open, ignores while open |
| SlidingWindow.AnswersAreExact | internal/storage/redis/failure_counter.go:83-133 | on every history with no smaller earlier span the answer is the number of records younger than the window; pruning, Count and expiry never show |
| SlidingWindow.ExactlyWhen | internal/storage/redis/call_budget.go:63-98 | for any spans, the answer is right exactly when no record inside the window has been lost to a cutoff of a call since or to the key's expiry |
| SlidingWindow.SmallerSpanFirstLoses | internal/storage/redis/call_budget.go:63-74 | for all spans small < large, a Count with the small one makes the large one's answer too low |
| SlidingWindow.FailureCounter.Record | internal/storage/redis/failure_counter.go:83-133 | the count, the threshold, the empty host, the failed pipeline, the expiry of twice the window; other hosts are untouched |
| SlidingWindow.FailureCounter.HostsApart | internal/storage/redis/failure_counter.go:78-80 | different hosts have different counters |
| SlidingWindow.NewFailureCounter | internal/storage/redis/failure_counter.go:56-76 | refuses exactly a threshold below one or a non-positive window |
| SlidingWindow.CallBudget.Count | internal/storage/redis/call_budget.go:63-74 | for any span, prunes and counts, leaving the key's expiry and every other window |
| SlidingWindow.CallBudget.Record | internal/storage/redis/call_budget.go:80-98 | for any span, adds, prunes, sets the expiry to twice the span and counts; other windows are untouched |
| Resolver.ScanIsNaive | internal/bus/resolver.go:198-256 | the scan of the sorted table finds the applying rule with the longest pattern, earliest in input on ties, or nothing when none applies |
| Resolver.StableSortUnique | internal/bus/resolver.go:217-222 | ordered with equal rules in input order determines the table |
| Resolver.DecisionMeans | internal/bus/resolver.go:262-286 | a decision exactly when a function rule matches or a host/path rule applies to the URL's lower-case host name and its path; the first function rule's priority, else the winning host/path rule's |
| Resolver.FirstFuncMeans | internal/bus/resolver.go:262-267 | the first matching function rule wins |
| Resolver.ChainMeans | internal/bus/resolver.go:351-358 | the first resolver that can decide decides; the terminal priority stands exactly when none can |
| Resolver.HeadAnswers | internal/bus/resolver.go:49-358 | at the head of a chain: a job's priority from 1 to 3 stands, a registered crawler gets its registered priority, a fixed one its own; otherwise the rest of the chain answers |
| Resolver.RuleBasedAnswers | internal/bus/resolver.go:233-358 | a rule-based resolver at the head answers with its first matching function rule, else with the winning host/path rule, else the rest of the chain does |
| Resolver.FallbacksNeverShow | internal/bus/resolver.go:351-358 | in a chain no resolver's own fallback can be the answer |
| Resolver.RuleBasedPriorityResolver.SetHostPathRules | internal/bus/resolver.go:198-224 | uncompilable rules are skipped and the rest stably sorted |
| Resolver.RuleBasedPriorityResolver.MatchHostPath | internal/bus/resolver.go:233-256 | the loop finds the first hit of the table, nothing for a bad URL |
| Resolver.RuleBasedPriorityResolver.Resolve | internal/bus/resolver.go:262-272 | the decision, else the fallback |
| Resolver.RuleBasedPriorityResolver.CanResolve | internal/bus/resolver.go:276-286 | true exactly when there is a decision |
| Resolver.CompositeResolver.Resolve | internal/bus/resolver.go:351-358 | the first resolver of the chain that can decide, else the terminal priority; what each kind of first resolver answers |
| ExtractJson.ExtractExactly | pkg/agent/codex/worker.go:611-652 | for every object and suffix the object is returned exactly, if and only if the prefix leaves the scanner outside braces and strings |
| ExtractJson.ExtractsAfterPlainText | pkg/agent/codex/worker.go:611-652 | for every prefix without an opening brace or a quote, every JSON object text (RFC 8259, sections 4 and 7) and every suffix, exactly the object is returned |
| ExtractJson.FoundExactly | pkg/agent/codex/worker.go:611-652 | nothing is returned exactly when no outermost brace is ever closed; otherwise a stretch from an opening brace met outside any brace or string to the first closing brace that closes it |
| ExtractJson.RunValue | pkg/agent/codex/worker.go:617-650 | inside an object any JSON value leaves depth and string state as they were |
| ExtractJson.ExtractJSON | pkg/agent/codex/worker.go:611-652 | the loop computes Extract |
| AgentWorker.AddBesideWaitExactly | pkg/agent/codex/worker.go:346-413 | in every run of sessions and Stop calls something is added to the wait group beside a pending wait if and only if a session is admitted while the wait of a Stop whose removal failed is still pending |
| AgentWorker.ForcedStopMeetsItsWaiter | pkg/agent/codex/worker.go:385-410 | the exception happens: a run with an Add beside a pending wait |
| AgentWorker.DrainedStopCutsOffNobody | pkg/agent/codex/worker.go:384-411 | a Stop that ended by draining removes the container from under no session |
| AgentWorker.AdmittedToLiveContainer | pkg/agent/codex/worker.go:355-363 | a session is admitted only to a container that was not removed, with no Stop under way |
| AgentWorker.FailedStopRestores | pkg/agent/codex/worker.go:398-410 | after a failed removal the same container admits sessions again |
| AgentWorker.Worker.Admit | pkg/agent/codex/worker.go:355-363 | admitted exactly while started and not stopping |
| AgentWorker.Worker.TakeContainer | pkg/agent/codex/worker.go:368-382 | Stop takes the container once; a stopped worker is left alone |
| AgentWorker.Worker.Conclude | pkg/agent/codex/worker.go:398-413 | restores exactly after a failed removal |
| TomlOverrides.McpOverrideArgs | pkg/agent/codex/mcp.go:37-79 | whatever orders the maps are listed in, the result is one function of the configuration |
| TomlOverrides.PrintedExactlyWhenValid | pkg/agent/codex/mcp.go:37-114 | an error exactly for a bad server name, a blank command or a bad environment key |
| TomlOverrides.AllowedExactly | pkg/agent/codex/mcp.go:85-114 | the allowed runes are ASCII letters, digits, the underscore and, in server names, the dash |
| TomlOverrides.ErrorIsFirst | pkg/agent/codex/mcp.go:42-46 | the least invalid server in string order decides the error |
| TomlOverrides.ServerErrorIsFirst | pkg/agent/codex/mcp.go:47-72 | of one server a bad name is reported before a blank command, that before the least bad key |
| TomlOverrides.ServerPrints | pkg/agent/codex/mcp.go:47-76 | what a valid server prints, and that empty arguments are left out |
| TomlOverrides.EscapesExactly | pkg/agent/codex/mcp.go:120-141 | the five escapes; every other rune stands for itself |
| TomlOverrides.NameErrorExact | pkg/agent/codex/mcp.go:85-98 | a name passes exactly when it is not empty and every rune is allowed; otherwise which error |
| TomlOverrides.ValidateServerName | pkg/agent/codex/mcp.go:85-98 | the error for an empty name or its first bad rune |
| TomlOverrides.ValidateEnvKey | pkg/agent/codex/mcp.go:101-114 | the error for an empty key or its first bad rune |
| TomlOverrides.TomlStringOf | pkg/agent/codex/mcp.go:120-141 | the loop prints TomlString |
| TomlOverrides.TomlStringArrayOf | pkg/agent/codex/mcp.go:144-150 | the loop prints TomlStringArray |
| TomlReader.RoundTrip | pkg/agent/codex/mcp.go:37-150 | reading the arguments back gives the configuration, for all valid configurations; under strict TOML v1.0.0 if and only if no value holds a raw control character |
| TomlReader.BodyReads | pkg/agent/codex/mcp.go:120-141 | unescaping undoes escaping for every string |
| TomlReader.ArrayReads | pkg/agent/codex/mcp.go:144-150 | the printed array reads back |
| Strings.SortIgnoresOrder | pkg/agent/codex/mcp.go:42-46 | sorting forgets the order in which a map lists its keys |
| Strings.LessMeans | pkg/agent/codex/mcp.go:42-46 | string order: a proper prefix, or the smaller character at the first difference |

## Left out

- The 24 h expiry of queue and retry entries, operator-forced deletion of processing locks, and a
  restart after a crash that loses Redis itself.
- The sorted set's own key coinciding with an entry key, which the source does not check either.
- float64 rounding of scores: they are integers here; priority scores stay below 2^53, nanosecond
  scores are taken as exact.
- A go-redis pipeline is one step in SlidingWindow, JobBuffer and RetryPolling; PriorityQueue and
  RetryQueue split it. Commands after a failed one inside a pipeline are taken not to run.
- A BZPOPMIN whose reply is lost after it ran.
- Partial writes of a batch that Kafka refuses, and what the retry scheduler later sends to the
  drained topics.
- SHA-256, JSON encoding of jobs and envelopes, URL parsing, regular expressions and lower-casing are
  function parameters.
- Kafka, Redis and Docker clients, logging, metrics, heartbeats and configuration loading.
- KafkaImmediateRetryScheduler, BuildStageGate and the Noop variants, which delegate.
- A second Start of an agent worker after Stop (the stopping flag then refuses every session), its
  workspace directory, and the claude copies of the worker and of extractJSON.
- Back-off computation, throttling, URL guards and the publishing done inside an entry goroutine.
- Handler panics, and a second Stop of the consumer pool, which only waits for the first.
- TomlReader accepts the forms the printer produces, not every TOML document: no white space between
  array elements, no literal strings, no \u escapes.
- ExtractJson admits a few texts beyond JSON as tokens and escapes, so its theorems cover more inputs
  than RFC 8259 names.
