# Telemetry event batcher

A Dafny model of `DefaultTelemetryBatcher`, the component of the AWS Toolkit for
JetBrains that collects metric events from the IDE and sends them to a telemetry
publisher in batches.

The batcher owns a bounded FIFO of opaque metric events (a `LinkedBlockingDeque`
of capacity `maxQueueSize`), an "enabled" flag that starts out false, and a
one-shot "shutting down" flag. Its operations are:

- **enqueue** (one event or a list): appends to the deque. An overflowing
  `addAll` appends what fits and then throws. The batcher catches and logs that
  exception, so the events that did not fit are dropped.
- **flush(retry)**: if the instance flag or the process-wide switch
  (`TELEMETRY_ENABLED`, a system property) is off, the queue is cleared.
  Otherwise it pops batches of at most `maxBatchSize` events from the head and
  hands each one to the publisher. A publish that returns false or throws an
  `Exception` is a failure. On a failure with `retry` the batch is added back and the flush
  stops. On a failure without `retry` the batch is dropped and the flush goes on.
- **shutdown**: the first call sets the shutting-down flag and runs
  `flush(false)`. Every later call does nothing.
- **onTelemetryEnabledChanged**: sets the enabled flag.

## Layout

- `telemetry_batcher.dfy`, module `TelemetryBatcher`:
  - the pure specification of each operation: `Admit` for enqueue, `Drain`
    for the publishing loop, `FlushOutcome` for the private `flush(retry, publish)`;
  - the class `DefaultTelemetryBatcher`, with the source's fields and methods.
    Its methods are imperative (the nested pop loops of flush are `while`
    loops) and are proved against those functions;
  - `RecordingPublisher`, a stand-in for the publisher. Its answer to its k-th
    call is `answers(k)`: `Accepted`, `Refused` (returned false) or `Threw`. It
    records every batch it is handed in `published`.
- `batcher_properties.dfy`, module `BatcherProperties`: the lemmas. They cover
  the capacity bound and order of enqueue, how flush cuts the queue into
  batches, the drop and retry policies, the disabled path, composition of
  enqueue calls, two worked examples, and idempotent shutdown.

A retried batch goes to the **tail** of the queue. Line 80 calls
`eventQueue.addAll(batch)`, which appends. After a failed retrying flush the
queue is the events not yet popped, followed by the failed batch. A later
flush therefore retries the failed events after the ones that were behind them;
the original order is not restored. `RetryRequeuesAtTail` works the six-event
example: the queue ends as `[D,E,F,A,B,C]`, not `[A,B,C,D,E,F]`.

## Model

| member | source | states |
|---|---|---|
| TelemetryBatcher.Admit | core/src/software/aws/toolkits/core/telemetry/TelemetryBatcher.kt:45-51 | an enqueue never takes the queue past capacity; the old contents stay as a prefix; what is added is a prefix of the events in their given order, exactly as many as fit |
| TelemetryBatcher.Drain | core/src/software/aws/toolkits/core/telemetry/TelemetryBatcher.kt:64-84 | the publishing loop terminates; it leaves at most as many events as it started with and makes at most one publisher call per queued event |
| TelemetryBatcher.FlushOutcome | core/src/software/aws/toolkits/core/telemetry/TelemetryBatcher.kt:59-84 | flush never grows the queue, on both the clearing path and the publishing path |
| TelemetryBatcher.DrainRoundRetried | core/src/software/aws/toolkits/core/telemetry/TelemetryBatcher.kt:78-82 | a failed publish under retry appends the popped batch at the tail of the remaining queue and ends the flush after that one call |
| TelemetryBatcher.DrainRoundContinued | core/src/software/aws/toolkits/core/telemetry/TelemetryBatcher.kt:64-84 | a successful publish, or any publish without retry, publishes the popped batch and the flush continues on the events behind it |
| TelemetryBatcher.RecordingPublisher.Publish | core/src/software/aws/toolkits/core/telemetry/TelemetryBatcher.kt:71-76 | each publisher call receives the batch and is answered by the next scripted reply; a throw is one of the replies |
| TelemetryBatcher.DefaultTelemetryBatcher.constructor | core/src/software/aws/toolkits/core/telemetry/TelemetryBatcher.kt:23-31 | a new batcher has an empty queue, telemetry disabled and is not shutting down |
| TelemetryBatcher.DefaultTelemetryBatcher.WithDefaults | core/src/software/aws/toolkits/core/telemetry/TelemetryBatcher.kt:89-92 | the default batch size is 20 and the default queue capacity 10000 |
| TelemetryBatcher.DefaultTelemetryBatcher.Shutdown | core/src/software/aws/toolkits/core/telemetry/TelemetryBatcher.kt:33-39 | the first call sets the shutting-down flag and has exactly the effect of flush(false); a later call changes neither the queue nor the publisher |
| TelemetryBatcher.DefaultTelemetryBatcher.Enqueue | core/src/software/aws/toolkits/core/telemetry/TelemetryBatcher.kt:41-43 | enqueue(event) has the effect of enqueue(listOf(event)) and keeps the capacity bound |
| TelemetryBatcher.DefaultTelemetryBatcher.EnqueueAll | core/src/software/aws/toolkits/core/telemetry/TelemetryBatcher.kt:45-51 | the new queue is the old one with the events that fit appended; the capacity bound is kept |
| TelemetryBatcher.DefaultTelemetryBatcher.Flush | core/src/software/aws/toolkits/core/telemetry/TelemetryBatcher.kt:53-55 | flush(retry) is the private flush with publish set from the current enabled flag |
| TelemetryBatcher.DefaultTelemetryBatcher.FlushWith | core/src/software/aws/toolkits/core/telemetry/TelemetryBatcher.kt:58-85 | the clear-then-loop code leaves the queue and hands the publisher exactly the batches that FlushOutcome gives, in call order; the capacity bound is kept |
| TelemetryBatcher.DefaultTelemetryBatcher.PopBatch | core/src/software/aws/toolkits/core/telemetry/TelemetryBatcher.kt:65-69 | the inner loop pops min(queue size, maxBatchSize) events off the head, in order, into a fresh batch |
| TelemetryBatcher.DefaultTelemetryBatcher.OnTelemetryEnabledChanged | core/src/software/aws/toolkits/core/telemetry/TelemetryBatcher.kt:87 | sets the enabled flag and touches nothing else, not the queue |
| BatcherProperties.AdmitEach | core/src/software/aws/toolkits/core/telemetry/TelemetryBatcher.kt:45-51 | a run of enqueue calls keeps the capacity bound and keeps the starting queue as a prefix |
| BatcherProperties.AdmitOneEvent | core/src/software/aws/toolkits/core/telemetry/TelemetryBatcher.kt:41-43 | a single enqueue appends the event when the queue has room and otherwise leaves the queue as it was |
| BatcherProperties.AdmitSequential | core/src/software/aws/toolkits/core/telemetry/TelemetryBatcher.kt:45-51 | two enqueue calls in a row equal one enqueue of both lists; once events are dropped for lack of room, all later ones are dropped too |
| BatcherProperties.AdmitEachIsAdmitConcat | core/src/software/aws/toolkits/core/telemetry/TelemetryBatcher.kt:45-51 | any run of enqueue calls equals one enqueue of all their events in call order |
| BatcherProperties.DrainBatchSizes | core/src/software/aws/toolkits/core/telemetry/TelemetryBatcher.kt:64-69 | every published batch is non-empty and has at most maxBatchSize events; every batch but the last of a flush has exactly maxBatchSize |
| BatcherProperties.DrainTakesFromHead | core/src/software/aws/toolkits/core/telemetry/TelemetryBatcher.kt:64-69 | the published batches, laid end to end, are a prefix of the queue at entry, so they come off the head in FIFO order |
| BatcherProperties.FlushCallBound | core/src/software/aws/toolkits/core/telemetry/TelemetryBatcher.kt:64-84 | a flush makes at most one publisher call per queued event, and at least one when publishing is on and the queue is not empty |
| BatcherProperties.DrainWithoutRetry | core/src/software/aws/toolkits/core/telemetry/TelemetryBatcher.kt:64-84 | without retry, whatever the publisher answers, the batches laid end to end equal the queue at entry; failed batches are dropped and the queue ends empty |
| BatcherProperties.DrainRetryOnlyLastMayFail | core/src/software/aws/toolkits/core/telemetry/TelemetryBatcher.kt:78-82 | with retry, every publisher call of a flush except possibly the last one succeeded |
| BatcherProperties.DrainRetryCompletes | core/src/software/aws/toolkits/core/telemetry/TelemetryBatcher.kt:64-84 | with retry, the queue ends empty exactly when every publisher call succeeded, and then the whole queue was published in order |
| BatcherProperties.DrainRetryRequeues | core/src/software/aws/toolkits/core/telemetry/TelemetryBatcher.kt:78-82 | with retry, a flush that leaves events behind stopped at a failed call, made no later call, and left the unpopped events followed by the failed batch |
| BatcherProperties.RetryIrrelevantWhenPublishingSucceeds | core/src/software/aws/toolkits/core/telemetry/TelemetryBatcher.kt:78-83 | the retry flag changes nothing while every publish succeeds |
| BatcherProperties.FlushWithoutRetry | core/src/software/aws/toolkits/core/telemetry/TelemetryBatcher.kt:59-84 | flush(false) always leaves the queue empty; if either flag disables publishing it makes no publisher call, otherwise it publishes every queued event once, in order |
| BatcherProperties.FlushWithRetry | core/src/software/aws/toolkits/core/telemetry/TelemetryBatcher.kt:59-84 | flush(true) with publishing disabled clears the queue and makes no call; with it enabled it delivers everything, or stops at the failed call and requeues that batch at the tail |
| BatcherProperties.DeliversEverythingEnqueued | core/src/software/aws/toolkits/core/telemetry/TelemetryBatcher.kt:45-84 | events from any run of enqueue calls that fits the capacity are all published by one enabled flush(false), in the order enqueued, with no loss or duplication |
| BatcherProperties.FiveEventsInBatchesOfTwo | core/src/software/aws/toolkits/core/telemetry/TelemetryBatcher.kt:64-84 | five events with batch size two and a publisher that always succeeds give the batches [A,B], [C,D], [E] and an empty queue |
| BatcherProperties.RetryRequeuesAtTail | core/src/software/aws/toolkits/core/telemetry/TelemetryBatcher.kt:78-82 | six events with batch size three and a first publish that throws give one call with [A,B,C] and the queue [D,E,F,A,B,C] |
| BatcherProperties.FiveEventsThroughTheBatcher | core/src/software/aws/toolkits/core/telemetry/TelemetryBatcher.kt:41-84 | driving a batcher of batch size two and capacity five through enable, three enqueue calls and flush(false) publishes [A,B], [C,D], [E] (the sixth event does not fit) and leaves the queue empty |
| BatcherProperties.ShutdownTwice | core/src/software/aws/toolkits/core/telemetry/TelemetryBatcher.kt:33-39 | two shutdown calls leave the batcher and the publisher as one call does |

## Left out

- Concurrency is not modelled. The deque's thread safety, `@Synchronized` on
  the private flush (line 58) and `AtomicBoolean.compareAndSet` in shutdown
  (line 34) become plain sequential fields and a plain test-and-set.
- An enqueue running at the same time as a flush is not modelled. In the
  source, such an enqueue can fill the deque between the pops and the re-add at
  line 80, and that `addAll` would then throw out of flush. In a sequential run
  the popped batch always fits back.
- DefaultTelemetryBatcher.FlushWith: the catch at line 73 catches only
  `Exception`. A publisher that throws an `Error` (`NotImplementedError`,
  `AssertionError`, `StackOverflowError`) escapes the flush: the popped batch is
  lost even under retry, the events behind it stay queued, and inside shutdown
  the flag is already set, so no later shutdown drains them. `PublishReply` has
  no outcome for this path, so the model does not cover it.
- Logging (lines 49, 74, 79) is a side channel and is left out.
- The real `TelemetryPublisher` and its transport are not part of this model.
  `RecordingPublisher` replays a script of replies, so every sequence of
  successes, false returns and exceptions is covered.
- The system property behind `TELEMETRY_ENABLED` (line 95) is not read. It is
  the constructor argument `telemetryEnabledGlobally`.
- Persisting events to disk on shutdown (line 57) is only a TODO in the source.
- DefaultTelemetryBatcher.constructor: requires `maxBatchSize >= 1`, which the
  source does not check. With publishing on, a batch size of 0 or less and a
  non-empty queue make flush hand empty batches to the publisher forever,
  unless a retrying flush sees a failure and returns after that one call. With
  publishing off the queue is cleared first and the size does not matter.
- DefaultTelemetryBatcher.constructor: requires `maxQueueSize >= 1`, because
  `LinkedBlockingDeque` throws on a smaller capacity.
- The `TelemetryBatcher` interface (lines 11-21) has no separate declaration.
  Its five operations are the class's methods. Kotlin's two `enqueue`
  overloads are named `Enqueue` and `EnqueueAll`.
- Sizes and counts are unbounded integers. The queue is bounded by an `Int`
  capacity, so the source has no overflow to model.
