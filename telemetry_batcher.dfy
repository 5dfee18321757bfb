/**
 * A model of DefaultTelemetryBatcher: a bounded FIFO of opaque metric events
 * that is drained into bounded batches and handed to a publisher.
 *
 * The pure functions at the top of the module say what each operation does to
 * the queue and to the publisher; the two classes below are the imperative
 * model (the batcher's fields, the nested pop loops of flush) and are proved
 * against those functions.
 */
module TelemetryBatcher {

  const DefaultMaxBatchSize := 20
  const DefaultMaxQueueSize := 10000

  /** What a call to the publisher came to: it returned true, returned false, or threw an `Exception`. */
  datatype PublishReply = Accepted | Refused | Threw

  /** The try/catch around the publish call: a thrown `Exception` counts as a failed publish. */
  predicate Succeeded(reply: PublishReply)
  {
    reply.Accepted?
  }

  /** The queue left behind by a flush and the batches it handed to the publisher, in call order. */
  datatype Drained<E> = Drained(queue: seq<E>, batches: seq<seq<E>>)

  /** All batches, one after the other. */
  function Concat<E>(batches: seq<seq<E>>): (r: seq<E>)
  {
    if batches == [] then [] else batches[0] + Concat(batches[1..])
  }

  function Min(a: int, b: int): (r: int)
  {
    if a <= b then a else b
  }

  /**
   * The bulk append of `enqueue(events)` on a deque of the given capacity.
   * The deque appends what fits, one event at a time, and throws once it is
   * full; the batcher catches and logs that exception, so the rest of the
   * events are dropped.
   */
  function Admit<E>(queue: seq<E>, events: seq<E>, capacity: int): (r: seq<E>)
    requires |queue| <= capacity
    ensures |r| <= capacity
    ensures queue <= r
    ensures r[|queue|..] <= events
    ensures |r| == Min(|queue| + |events|, capacity)
  {
    var room := capacity - |queue|;
    if |events| <= room then queue + events else queue + events[..room]
  }

  /**
   * The publishing loop of flush, started on `queue` when the publisher has
   * already answered `calls` calls. Each round pops up to maxBatchSize events
   * from the head and publishes them; a failed publish under `retry` appends
   * the batch back at the tail of the queue and ends the flush, a failed
   * publish without `retry` drops the batch.
   */
  function Drain<E>(queue: seq<E>, maxBatchSize: int, retry: bool, answers: nat -> PublishReply, calls: nat): (r: Drained<E>)
    requires maxBatchSize >= 1
    ensures |r.queue| <= |queue|
    ensures |r.batches| <= |queue|
    decreases |queue|
  {
    if queue == [] then Drained([], [])
    else
      var n := Min(|queue|, maxBatchSize);
      var batch := queue[..n];
      if !Succeeded(answers(calls)) && retry then
        Drained(queue[n..] + batch, [batch])
      else
        var rest := Drain(queue[n..], maxBatchSize, retry, answers, calls + 1);
        Drained(rest.queue, [batch] + rest.batches)
  }

  /** A round of Drain whose publish fails under retry: the batch goes back at the tail and draining stops. */
  lemma DrainRoundRetried<E>(queue: seq<E>, maxBatchSize: int, retry: bool, answers: nat -> PublishReply, calls: nat,
                             batch: seq<E>, behind: seq<E>)
    requires maxBatchSize >= 1 && queue != []
    requires queue == batch + behind && |batch| == Min(|queue|, maxBatchSize)
    requires !Succeeded(answers(calls)) && retry
    ensures Drain(queue, maxBatchSize, retry, answers, calls) == Drained(behind + batch, [batch])
  {
    assert queue[..|batch|] == batch && queue[|batch|..] == behind;
  }

  /**
   * A round of Drain that goes on: the batch is published and the events behind it are drained next.
   * The batches are stated after an arbitrary `log` of earlier calls, so that the flush loop can use
   * this lemma directly on its call log without reasoning about associativity of `+`.
   */
  lemma DrainRoundContinued<E>(queue: seq<E>, maxBatchSize: int, retry: bool, answers: nat -> PublishReply, calls: nat,
                               batch: seq<E>, behind: seq<E>, log: seq<seq<E>>)
    requires maxBatchSize >= 1 && queue != []
    requires queue == batch + behind && |batch| == Min(|queue|, maxBatchSize)
    requires Succeeded(answers(calls)) || !retry
    ensures Drain(queue, maxBatchSize, retry, answers, calls).queue == Drain(behind, maxBatchSize, retry, answers, calls + 1).queue
    ensures log + Drain(queue, maxBatchSize, retry, answers, calls).batches
         == (log + [batch]) + Drain(behind, maxBatchSize, retry, answers, calls + 1).batches
  {
    assert queue[..|batch|] == batch && queue[|batch|..] == behind;
  }

  /**
   * The private flush(retry, publish): unless both the instance's flag and the
   * process-wide switch allow publishing, the queue is cleared and nothing is
   * published.
   */
  function FlushOutcome<E>(queue: seq<E>, maxBatchSize: int, retry: bool, publish: bool, answers: nat -> PublishReply, calls: nat): (r: Drained<E>)
    requires maxBatchSize >= 1
    ensures |r.queue| <= |queue|
  {
    if publish then Drain(queue, maxBatchSize, retry, answers, calls) else Drained([], [])
  }

  /**
   * A publisher whose answer to its k-th call (counting from 0) is answers(k),
   * and which records every batch it is handed.
   */
  class RecordingPublisher<E> {
    const answers: nat -> PublishReply
    var published: seq<seq<E>>

    constructor (answers: nat -> PublishReply)
      ensures this.answers == answers && published == []
    {
      this.answers := answers;
      published := [];
    }

    method Publish(batch: seq<E>) returns (reply: PublishReply)
      modifies this
      ensures reply == answers(|old(published)|)
      ensures published == old(published) + [batch]
    {
      reply := answers(|published|);
      published := published + [batch];
    }
  }

  class DefaultTelemetryBatcher<E> {
    const publisher: RecordingPublisher<E>
    const maxBatchSize: int
    const maxQueueSize: int
    /** The process-wide switch read from a system property when the class is loaded. */
    const telemetryEnabledGlobally: bool
    var isTelemetryEnabled: bool
    var eventQueue: seq<E>
    var isShuttingDown: bool

    ghost predicate Valid()
      reads this
    {
      maxBatchSize >= 1 && maxQueueSize >= 1 && |eventQueue| <= maxQueueSize
    }

    constructor (publisher: RecordingPublisher<E>, maxBatchSize: int, maxQueueSize: int, telemetryEnabledGlobally: bool)
      requires maxBatchSize >= 1 && maxQueueSize >= 1
      ensures Valid()
      ensures this.publisher == publisher && this.maxBatchSize == maxBatchSize && this.maxQueueSize == maxQueueSize
      ensures this.telemetryEnabledGlobally == telemetryEnabledGlobally
      ensures eventQueue == [] && !isTelemetryEnabled && !isShuttingDown
    {
      this.publisher := publisher;
      this.maxBatchSize := maxBatchSize;
      this.maxQueueSize := maxQueueSize;
      this.telemetryEnabledGlobally := telemetryEnabledGlobally;
      isTelemetryEnabled := false;
      eventQueue := [];
      isShuttingDown := false;
    }

    /** The constructor with the default batch size and queue capacity. */
    constructor WithDefaults(publisher: RecordingPublisher<E>, telemetryEnabledGlobally: bool)
      ensures Valid()
      ensures this.publisher == publisher && maxBatchSize == 20 && maxQueueSize == 10000
      ensures this.telemetryEnabledGlobally == telemetryEnabledGlobally
      ensures eventQueue == [] && !isTelemetryEnabled && !isShuttingDown
    {
      this.publisher := publisher;
      maxBatchSize := DefaultMaxBatchSize;
      maxQueueSize := DefaultMaxQueueSize;
      this.telemetryEnabledGlobally := telemetryEnabledGlobally;
      isTelemetryEnabled := false;
      eventQueue := [];
      isShuttingDown := false;
    }

    method Shutdown()
      requires Valid()
      modifies this`eventQueue, this`isShuttingDown, publisher
      ensures Valid() && isShuttingDown
      ensures old(isShuttingDown) ==> eventQueue == old(eventQueue) && publisher.published == old(publisher.published)
      ensures !old(isShuttingDown) ==>
        var r := FlushOutcome(old(eventQueue), maxBatchSize, false, isTelemetryEnabled && telemetryEnabledGlobally,
                              publisher.answers, |old(publisher.published)|);
        eventQueue == r.queue && publisher.published == old(publisher.published) + r.batches
    {
      if isShuttingDown {
        return;
      }
      isShuttingDown := true;
      Flush(false);
    }

    method Enqueue(event: E)
      requires Valid()
      modifies this`eventQueue
      ensures Valid()
      ensures eventQueue == Admit(old(eventQueue), [event], maxQueueSize)
    {
      EnqueueAll([event]);
    }

    method EnqueueAll(events: seq<E>)
      requires Valid()
      modifies this`eventQueue
      ensures Valid()
      ensures eventQueue == Admit(old(eventQueue), events, maxQueueSize)
    {
      var room := maxQueueSize - |eventQueue|;
      if |events| <= room {
        eventQueue := eventQueue + events;
      } else {
        // the deque takes what fits, then throws; the exception is caught and logged
        eventQueue := eventQueue + events[..room];
      }
    }

    method Flush(retry: bool)
      requires Valid()
      modifies this`eventQueue, publisher
      ensures Valid()
      ensures var r := FlushOutcome(old(eventQueue), maxBatchSize, retry, isTelemetryEnabled && telemetryEnabledGlobally,
                                    publisher.answers, |old(publisher.published)|);
        eventQueue == r.queue && publisher.published == old(publisher.published) + r.batches
    {
      FlushWith(retry, isTelemetryEnabled);
    }

    /** The synchronized private flush(retry, publish). */
    method FlushWith(retry: bool, publish: bool)
      requires Valid()
      modifies this`eventQueue, publisher
      ensures Valid()
      ensures var r := FlushOutcome(old(eventQueue), maxBatchSize, retry, publish && telemetryEnabledGlobally,
                                    publisher.answers, |old(publisher.published)|);
        eventQueue == r.queue && publisher.published == old(publisher.published) + r.batches
    {
      ghost var whole := FlushOutcome(eventQueue, maxBatchSize, retry, publish && telemetryEnabledGlobally,
                                      publisher.answers, |publisher.published|);
      ghost var published0 := publisher.published;
      ghost var answers := publisher.answers;
      if !publish || !telemetryEnabledGlobally {
        eventQueue := [];
      }
      while eventQueue != []
        invariant |eventQueue| <= maxQueueSize
        invariant whole.queue == Drain(eventQueue, maxBatchSize, retry, answers, |publisher.published|).queue
        invariant published0 + whole.batches == publisher.published + Drain(eventQueue, maxBatchSize, retry, answers, |publisher.published|).batches
        decreases |eventQueue|
      {
        ghost var before, log := eventQueue, publisher.published;
        ghost var calls := |log|;
        var batch := PopBatch();
        var reply := publisher.Publish(batch);
        var publishSucceeded := Succeeded(reply);
        if !publishSucceeded && retry {
          eventQueue := eventQueue + batch;
          assert whole.queue == eventQueue && published0 + whole.batches == publisher.published by {
            DrainRoundRetried(before, maxBatchSize, retry, answers, calls, batch, before[|batch|..]);
          }
          return;
        }
        assert whole.queue == Drain(eventQueue, maxBatchSize, retry, answers, |publisher.published|).queue &&
               published0 + whole.batches == publisher.published + Drain(eventQueue, maxBatchSize, retry, answers, |publisher.published|).batches by {
          assert |publisher.published| == calls + 1;
          DrainRoundContinued(before, maxBatchSize, retry, answers, calls, batch, eventQueue, log);
        }
      }
    }

    /** The inner loop of flush: pops up to maxBatchSize events off the head of the queue into a fresh batch. */
    method PopBatch() returns (batch: seq<E>)
      requires Valid()
      modifies this`eventQueue
      ensures Valid()
      ensures old(eventQueue) == batch + eventQueue
      ensures |batch| == Min(|old(eventQueue)|, maxBatchSize)
    {
      batch := [];
      while eventQueue != [] && |batch| < maxBatchSize
        invariant old(eventQueue) == batch + eventQueue
        invariant |batch| <= maxBatchSize
        decreases |eventQueue|
      {
        batch := batch + [eventQueue[0]];
        eventQueue := eventQueue[1..];
      }
    }

    method OnTelemetryEnabledChanged(newValue: bool)
      modifies this`isTelemetryEnabled
      ensures isTelemetryEnabled == newValue
    {
      isTelemetryEnabled := newValue;
    }
  }
}
