/**
 * What DefaultTelemetryBatcher promises, proved about the functions that
 * specify its operations: the capacity bound and order of enqueue, the batch
 * partitioning of flush, its retry and drop policies, and how the two compose.
 */
module BatcherProperties {
  import opened TelemetryBatcher

  /** Folds a run of enqueue(events) calls, one list of events per call, over a queue. */
  function AdmitEach<E>(queue: seq<E>, calls: seq<seq<E>>, capacity: int): (r: seq<E>)
    requires |queue| <= capacity
    ensures |r| <= capacity
    ensures queue <= r
    decreases |calls|
  {
    if calls == [] then queue else AdmitEach(Admit(queue, calls[0], capacity), calls[1..], capacity)
  }

  lemma ConcatPrepend<E>(batch: seq<E>, batches: seq<seq<E>>)
    ensures Concat([batch] + batches) == batch + Concat(batches)
  {
    assert ([batch] + batches)[1..] == batches;
  }

  // ---------------------------------------------------------------------------
  // enqueue
  // ---------------------------------------------------------------------------

  /** enqueue(event) is enqueue(listOf(event)): the event is appended when there is room, dropped otherwise. */
  lemma AdmitOneEvent<E>(queue: seq<E>, event: E, capacity: int)
    requires |queue| <= capacity
    ensures Admit(queue, [event], capacity) == if |queue| < capacity then queue + [event] else queue
  {
    if |queue| == capacity {
      assert [event][..0] == [];
    }
  }

  /**
   * Two enqueue calls in a row leave the queue as one call with both lists
   * would: once an overflow drops events, everything after them is dropped too.
   */
  lemma AdmitSequential<E>(queue: seq<E>, first: seq<E>, second: seq<E>, capacity: int)
    requires |queue| <= capacity
    ensures Admit(Admit(queue, first, capacity), second, capacity) == Admit(queue, first + second, capacity)
  {
    var room := capacity - |queue|;
    var both := first + second;
    if |both| <= room {
      calc {
        Admit(Admit(queue, first, capacity), second, capacity);
        Admit(queue + first, second, capacity);
        (queue + first) + second;
        { assert (queue + first) + second == queue + both; }
        Admit(queue, both, capacity);
      }
    } else if |first| <= room {
      var taken := second[..room - |first|];
      calc {
        Admit(Admit(queue, first, capacity), second, capacity);
        Admit(queue + first, second, capacity);
        (queue + first) + taken;
        { assert (queue + first) + taken == queue + (first + taken); }
        queue + (first + taken);
        { assert both[..room] == first + taken; }
        queue + both[..room];
        Admit(queue, both, capacity);
      }
    } else {
      var mid := queue + first[..room];
      calc {
        Admit(Admit(queue, first, capacity), second, capacity);
        Admit(mid, second, capacity);
        { assert |mid| == capacity && second[..0] == []; }
        mid;
        { assert both[..room] == first[..room]; }
        queue + both[..room];
        Admit(queue, both, capacity);
      }
    }
  }

  /** A run of enqueue calls leaves the queue as one enqueue of all their events, in call order. */
  lemma {:induction false} AdmitEachIsAdmitConcat<E>(queue: seq<E>, calls: seq<seq<E>>, capacity: int)
    requires |queue| <= capacity
    ensures AdmitEach(queue, calls, capacity) == Admit(queue, Concat(calls), capacity)
    decreases |calls|
  {
    if calls == [] {
      assert Concat(calls) == [];
      assert Concat(calls)[..0] == [];
    } else {
      var mid := Admit(queue, calls[0], capacity);
      AdmitEachIsAdmitConcat(mid, calls[1..], capacity);
      AdmitSequential(queue, calls[0], Concat(calls[1..]), capacity);
    }
  }

  // ---------------------------------------------------------------------------
  // flush: batch partitioning
  // ---------------------------------------------------------------------------

  /** Batches of one to maxBatchSize events, all but the last exactly maxBatchSize. */
  ghost predicate WellSized<E>(batches: seq<seq<E>>, maxBatchSize: int)
  {
    (forall i :: 0 <= i < |batches| ==> 1 <= |batches[i]| <= maxBatchSize) &&
    (forall i :: 0 <= i < |batches| - 1 ==> |batches[i]| == maxBatchSize)
  }

  /**
   * Every batch handed to the publisher holds between one and maxBatchSize
   * events, and every batch but the last one of a flush holds exactly maxBatchSize.
   */
  lemma {:induction false} DrainBatchSizes<E>(queue: seq<E>, maxBatchSize: int, retry: bool, answers: nat -> PublishReply, calls: nat)
    requires maxBatchSize >= 1
    ensures WellSized(Drain(queue, maxBatchSize, retry, answers, calls).batches, maxBatchSize)
    decreases |queue|
  {
    if queue != [] {
      var n := Min(|queue|, maxBatchSize);
      if Succeeded(answers(calls)) || !retry {
        var rest := Drain(queue[n..], maxBatchSize, retry, answers, calls + 1);
        var bs := Drain(queue, maxBatchSize, retry, answers, calls).batches;
        DrainBatchSizes(queue[n..], maxBatchSize, retry, answers, calls + 1);
        assert bs == [queue[..n]] + rest.batches;
        assert |bs[0]| == n && 1 <= n <= maxBatchSize;
        assert |bs| > 1 ==> n == maxBatchSize;
        forall i | 1 <= i < |bs|
          ensures 1 <= |bs[i]| <= maxBatchSize && (i < |bs| - 1 ==> |bs[i]| == maxBatchSize)
        {
          assert bs[i] == rest.batches[i - 1];
        }
      }
    }
  }

  /**
   * The batches are taken off the head of the queue in FIFO order: laid end to
   * end they are a prefix of the queue as it was when flushing began.
   */
  lemma {:induction false} DrainTakesFromHead<E>(queue: seq<E>, maxBatchSize: int, retry: bool, answers: nat -> PublishReply, calls: nat)
    requires maxBatchSize >= 1
    ensures Concat(Drain(queue, maxBatchSize, retry, answers, calls).batches) <= queue
    decreases |queue|
  {
    if queue != [] {
      var n := Min(|queue|, maxBatchSize);
      var batch := queue[..n];
      assert queue == batch + queue[n..];
      if !Succeeded(answers(calls)) && retry {
        ConcatPrepend(batch, []);
      } else {
        var rest := Drain(queue[n..], maxBatchSize, retry, answers, calls + 1);
        DrainTakesFromHead(queue[n..], maxBatchSize, retry, answers, calls + 1);
        ConcatPrepend(batch, rest.batches);
      }
    }
  }

  /** Each call of the flush loop pops at least one event, so a flush makes at most one publisher call per queued event. */
  lemma FlushCallBound<E>(queue: seq<E>, maxBatchSize: int, retry: bool, publish: bool, answers: nat -> PublishReply, calls: nat)
    requires maxBatchSize >= 1
    ensures |FlushOutcome(queue, maxBatchSize, retry, publish, answers, calls).batches| <= |queue|
    ensures queue != [] && publish ==> |FlushOutcome(queue, maxBatchSize, retry, publish, answers, calls).batches| >= 1
  {
  }

  // ---------------------------------------------------------------------------
  // flush: the drop policy (retry = false)
  // ---------------------------------------------------------------------------

  /**
   * Without retry every queued event is handed to the publisher exactly once,
   * in queue order, whatever the publisher answers: failed batches are dropped,
   * not requeued, and the queue ends empty.
   */
  lemma {:induction false} DrainWithoutRetry<E>(queue: seq<E>, maxBatchSize: int, answers: nat -> PublishReply, calls: nat)
    requires maxBatchSize >= 1
    ensures Drain(queue, maxBatchSize, false, answers, calls).queue == []
    ensures Concat(Drain(queue, maxBatchSize, false, answers, calls).batches) == queue
    decreases |queue|
  {
    if queue == [] {
      assert Concat<E>([]) == [];
    } else {
      var n := Min(|queue|, maxBatchSize);
      var rest := Drain(queue[n..], maxBatchSize, false, answers, calls + 1);
      DrainWithoutRetry(queue[n..], maxBatchSize, answers, calls + 1);
      ConcatPrepend(queue[..n], rest.batches);
      assert queue == queue[..n] + queue[n..];
    }
  }

  // ---------------------------------------------------------------------------
  // flush: the retry policy (retry = true)
  // ---------------------------------------------------------------------------

  /** With retry, every publisher call of a flush but possibly the last one succeeded. */
  lemma {:induction false} DrainRetryOnlyLastMayFail<E>(queue: seq<E>, maxBatchSize: int, answers: nat -> PublishReply, calls: nat)
    requires maxBatchSize >= 1
    ensures forall j :: calls <= j < calls + |Drain(queue, maxBatchSize, true, answers, calls).batches| - 1 ==> Succeeded(answers(j))
    decreases |queue|
  {
    if queue != [] && Succeeded(answers(calls)) {
      var n := Min(|queue|, maxBatchSize);
      var rest := Drain(queue[n..], maxBatchSize, true, answers, calls + 1);
      DrainRetryOnlyLastMayFail(queue[n..], maxBatchSize, answers, calls + 1);
      assert |Drain(queue, maxBatchSize, true, answers, calls).batches| == 1 + |rest.batches|;
    }
  }

  /**
   * A flush outcome with an empty queue is exactly one whose calls all
   * succeeded, and then its batches laid end to end are the whole queue.
   */
  ghost predicate CompletedExactlyWhenAllSucceeded<E>(queue: seq<E>, r: Drained<E>, answers: nat -> PublishReply, calls: nat)
  {
    (r.queue == [] <==> forall j :: calls <= j < calls + |r.batches| ==> Succeeded(answers(j))) &&
    (r.queue == [] ==> Concat(r.batches) == queue)
  }

  /**
   * With retry, a flush that ends with an empty queue had every publish
   * succeed and delivered the whole queue in order; one that ends with a
   * non-empty queue made its last call fail.
   */
  lemma {:induction false} DrainRetryCompletes<E>(queue: seq<E>, maxBatchSize: int, answers: nat -> PublishReply, calls: nat)
    requires maxBatchSize >= 1
    ensures CompletedExactlyWhenAllSucceeded(queue, Drain(queue, maxBatchSize, true, answers, calls), answers, calls)
    decreases |queue|
  {
    if queue == [] {
      assert Concat<E>([]) == [];
    } else {
      var n := Min(|queue|, maxBatchSize);
      var batch := queue[..n];
      if !Succeeded(answers(calls)) {
        assert Drain(queue, maxBatchSize, true, answers, calls) == Drained(queue[n..] + batch, [batch]);
        assert |queue[n..] + batch| > 0;
      } else {
        var rest := Drain(queue[n..], maxBatchSize, true, answers, calls + 1);
        var r := Drain(queue, maxBatchSize, true, answers, calls);
        DrainRetryCompletes(queue[n..], maxBatchSize, answers, calls + 1);
        assert r == Drained(rest.queue, [batch] + rest.batches);
        ConcatPrepend(batch, rest.batches);
        assert queue == batch + queue[n..];
        assert (forall j :: calls <= j < calls + |r.batches| ==> Succeeded(answers(j)))
           <==> (forall j :: calls + 1 <= j < calls + 1 + |rest.batches| ==> Succeeded(answers(j)));
      }
    }
  }

  /**
   * A flush outcome that left events behind made its last call fail and left
   * the events it had not popped, followed by the batch of that call.
   */
  ghost predicate RequeuedOnFailure<E>(queue: seq<E>, r: Drained<E>, answers: nat -> PublishReply, calls: nat)
  {
    r.queue != [] ==>
      |r.batches| >= 1 &&
      !Succeeded(answers(calls + |r.batches| - 1)) &&
      |Concat(r.batches)| <= |queue| &&
      r.queue == queue[|Concat(r.batches)|..] + r.batches[|r.batches| - 1]
  }

  /**
   * With retry, a flush whose last publish failed stops there and leaves the
   * events it had not popped yet, followed by the failed batch.
   */
  lemma {:induction false} DrainRetryRequeues<E>(queue: seq<E>, maxBatchSize: int, answers: nat -> PublishReply, calls: nat)
    requires maxBatchSize >= 1
    ensures RequeuedOnFailure(queue, Drain(queue, maxBatchSize, true, answers, calls), answers, calls)
    decreases |queue|
  {
    if queue != [] {
      var n := Min(|queue|, maxBatchSize);
      var batch := queue[..n];
      if !Succeeded(answers(calls)) {
        assert Drain(queue, maxBatchSize, true, answers, calls) == Drained(queue[n..] + batch, [batch]);
        ConcatPrepend(batch, []);
        assert [batch] + [] == [batch];
        assert Concat([batch]) == batch;
      } else {
        var rest := Drain(queue[n..], maxBatchSize, true, answers, calls + 1);
        var r := Drain(queue, maxBatchSize, true, answers, calls);
        DrainRetryRequeues(queue[n..], maxBatchSize, answers, calls + 1);
        assert r == Drained(rest.queue, [batch] + rest.batches);
        if rest.queue == [] {
          assert r.queue == [];
        } else {
          var m := |rest.batches|;
          var failed := rest.batches[m - 1];
          var k := |Concat(rest.batches)|;
          assert !Succeeded(answers(calls + 1 + m - 1));
          assert |r.batches| == m + 1 && r.batches[m] == failed;
          assert calls + |r.batches| - 1 == calls + 1 + m - 1;
          ConcatPrepend(batch, rest.batches);
          assert |Concat(r.batches)| == n + k && k <= |queue| - n;
          assert rest.queue == queue[n..][k..] + failed;
          assert queue[n..][k..] == queue[n + k..];
        }
      }
    }
  }

  /** Retry changes nothing while the publisher keeps succeeding. */
  lemma {:induction false} RetryIrrelevantWhenPublishingSucceeds<E>(queue: seq<E>, maxBatchSize: int, answers: nat -> PublishReply, calls: nat)
    requires maxBatchSize >= 1
    requires forall j :: calls <= j < calls + |queue| ==> Succeeded(answers(j))
    ensures Drain(queue, maxBatchSize, true, answers, calls) == Drain(queue, maxBatchSize, false, answers, calls)
    decreases |queue|
  {
    if queue != [] {
      var n := Min(|queue|, maxBatchSize);
      assert Succeeded(answers(calls));
      RetryIrrelevantWhenPublishingSucceeds(queue[n..], maxBatchSize, answers, calls + 1);
    }
  }

  // ---------------------------------------------------------------------------
  // flush as a whole
  // ---------------------------------------------------------------------------

  /**
   * flush(false): the queue always ends empty; with publishing off nothing is
   * published, with it on every queued event is published once, in order.
   */
  lemma FlushWithoutRetry<E>(queue: seq<E>, maxBatchSize: int, publish: bool, answers: nat -> PublishReply, calls: nat)
    requires maxBatchSize >= 1
    ensures FlushOutcome(queue, maxBatchSize, false, publish, answers, calls).queue == []
    ensures !publish ==> FlushOutcome(queue, maxBatchSize, false, publish, answers, calls).batches == []
    ensures publish ==> Concat(FlushOutcome(queue, maxBatchSize, false, publish, answers, calls).batches) == queue
  {
    DrainWithoutRetry(queue, maxBatchSize, answers, calls);
  }

  /**
   * flush(true): with publishing off the queue is cleared and nothing is
   * published; with it on the queue ends either empty, every event delivered,
   * or holding the unpopped events followed by the one batch that failed.
   */
  lemma FlushWithRetry<E>(queue: seq<E>, maxBatchSize: int, publish: bool, answers: nat -> PublishReply, calls: nat)
    requires maxBatchSize >= 1
    ensures var r := FlushOutcome(queue, maxBatchSize, true, publish, answers, calls);
      !publish ==> r.queue == [] && r.batches == []
    ensures var r := FlushOutcome(queue, maxBatchSize, true, publish, answers, calls);
      publish && r.queue == [] ==> Concat(r.batches) == queue
    ensures var r := FlushOutcome(queue, maxBatchSize, true, publish, answers, calls);
      publish && r.queue != [] ==>
        |r.batches| >= 1 && !Succeeded(answers(calls + |r.batches| - 1)) &&
        |Concat(r.batches)| <= |queue| &&
        r.queue == queue[|Concat(r.batches)|..] + r.batches[|r.batches| - 1]
  {
    if publish {
      DrainRetryCompletes(queue, maxBatchSize, answers, calls);
      DrainRetryRequeues(queue, maxBatchSize, answers, calls);
    }
  }

  /**
   * Events enqueued by any run of enqueue calls that fits the capacity are all
   * delivered, in the order enqueued, by one flush(false) with publishing on.
   */
  lemma DeliversEverythingEnqueued<E>(calls: seq<seq<E>>, capacity: int, maxBatchSize: int, answers: nat -> PublishReply, published: nat)
    requires maxBatchSize >= 1 && capacity >= 0
    requires |Concat(calls)| <= capacity
    ensures var queue := AdmitEach([], calls, capacity);
      queue == Concat(calls) &&
      Concat(FlushOutcome(queue, maxBatchSize, false, true, answers, published).batches) == Concat(calls)
  {
    AdmitEachIsAdmitConcat([], calls, capacity);
    FlushWithoutRetry(AdmitEach([], calls, capacity), maxBatchSize, true, answers, published);
  }

  // ---------------------------------------------------------------------------
  // Worked examples
  // ---------------------------------------------------------------------------

  /** Five events, batches of two, a publisher that always succeeds: batches [A,B], [C,D], [E]. */
  lemma FiveEventsInBatchesOfTwo()
    ensures var r := FlushOutcome(['A', 'B', 'C', 'D', 'E'], 2, false, true, _ => Accepted, 0);
      r.batches == [['A', 'B'], ['C', 'D'], ['E']] && r.queue == []
  {
    var answers: nat -> PublishReply := _ => Accepted;
    DrainRoundContinued(['A', 'B', 'C', 'D', 'E'], 2, false, answers, 0, ['A', 'B'], ['C', 'D', 'E'], []);
    DrainRoundContinued(['C', 'D', 'E'], 2, false, answers, 1, ['C', 'D'], ['E'], [['A', 'B']]);
    DrainRoundContinued(['E'], 2, false, answers, 2, ['E'], [], [['A', 'B'], ['C', 'D']]);
  }

  /**
   * Six events, batches of three, a publisher that fails only its first call,
   * flush(true): one call with [A,B,C], after which the failed batch sits
   * behind the unpopped events: [D,E,F,A,B,C].
   */
  lemma RetryRequeuesAtTail()
    ensures var r := FlushOutcome(['A', 'B', 'C', 'D', 'E', 'F'], 3, true, true, j => if j == 0 then Threw else Accepted, 0);
      r.batches == [['A', 'B', 'C']] && r.queue == ['D', 'E', 'F', 'A', 'B', 'C']
  {
    var answers: nat -> PublishReply := j => if j == 0 then Threw else Accepted;
    DrainRoundRetried(['A', 'B', 'C', 'D', 'E', 'F'], 3, true, answers, 0, ['A', 'B', 'C'], ['D', 'E', 'F']);
  }

  // ---------------------------------------------------------------------------
  // shutdown
  // ---------------------------------------------------------------------------

  /** Two shutdown calls leave the batcher and the publisher as one call does. */
  method ShutdownTwice<E>(batcher: DefaultTelemetryBatcher<E>)
    requires batcher.Valid()
    modifies batcher`eventQueue, batcher`isShuttingDown, batcher.publisher
    ensures batcher.Valid() && batcher.isShuttingDown
    ensures old(batcher.isShuttingDown) ==>
      batcher.eventQueue == old(batcher.eventQueue) && batcher.publisher.published == old(batcher.publisher.published)
    ensures !old(batcher.isShuttingDown) ==>
      var r := FlushOutcome(old(batcher.eventQueue), batcher.maxBatchSize, false,
                            batcher.isTelemetryEnabled && batcher.telemetryEnabledGlobally,
                            batcher.publisher.answers, |old(batcher.publisher.published)|);
      batcher.eventQueue == r.queue && batcher.publisher.published == old(batcher.publisher.published) + r.batches
  {
    batcher.Shutdown();
    batcher.Shutdown();
  }

  /** The batcher driven through its own methods reproduces the five-event example end to end. */
  method FiveEventsThroughTheBatcher() returns (published: seq<seq<char>>, queue: seq<char>)
    ensures published == [['A', 'B'], ['C', 'D'], ['E']]
    ensures queue == []
  {
    var publisher := new RecordingPublisher<char>(_ => Accepted);
    var batcher := new DefaultTelemetryBatcher(publisher, 2, 5, true);
    batcher.OnTelemetryEnabledChanged(true);
    batcher.EnqueueAll(['A', 'B', 'C']);
    batcher.Enqueue('D');
    batcher.EnqueueAll(['E', 'F']);
    assert batcher.eventQueue == ['A', 'B', 'C', 'D', 'E'];
    batcher.Flush(false);
    FiveEventsInBatchesOfTwo();
    published, queue := publisher.published, batcher.eventQueue;
  }
}
