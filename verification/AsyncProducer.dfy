/** The background worker of the producer (producer/async.go): it takes records from a queue,
    buffers them by partition, delivers full or flushed batches through the producer client, and
    completes one future for each record. */
module AsyncProducer {
  import opened Wrappers
  import opened Wire
  import opened RecordBatches
  import opened ProducerBatches
  import opened Delivery
  import opened DeliverySafety
  import opened DeliveryHistory
  import opened Producer
  import opened AsyncDesk
  import opened AsyncOutcomes

  datatype Event = ItemReady | FlushRequest | Tick

  /** What a flush is answered: how many records had been queued when its drain ended, and whether a
      batch failed. */
  datatype Reply = Reply(drained: nat, failed: bool)

  /** Every record queued before the end of the drain is completed. */
  predicate Fulfilled(reply: Reply, results: map<nat, Outcome>) {
    forall i :: 0 <= i < reply.drained ==> i in results
  }

  lemma FulfilledAt(reply: Reply, results: map<nat, Outcome>)
    requires Fulfilled(reply, results)
    ensures forall i :: 0 <= i < reply.drained ==> i in results
  {}

  lemma FulfilledStays(before: map<nat, Outcome>, after: map<nat, Outcome>, replies: seq<Reply>)
    requires Grew(before, after)
    ensures forall i :: 0 <= i < |replies| && Fulfilled(replies[i], before) ==> Fulfilled(replies[i], after)
  {}

  function Requests(events: seq<Event>): nat {
    if events == [] then 0
    else Requests(events[..|events| - 1]) + (if events[|events| - 1].FlushRequest? then 1 else 0)
  }

  lemma GrewSelf(a: map<nat, Outcome>)
    ensures Grew(a, a)
  {}

  lemma GrewTwice(a: map<nat, Outcome>, b: map<nat, Outcome>, c: map<nat, Outcome>)
    requires Grew(a, b) && Grew(b, c)
    ensures Grew(a, c)
  {}

  /** Taking a record changes no result that is there. */
  lemma OneRecordGrows(d: Desk, e: Desk, partition: Option<Int32>, limits: Limits)
    requires Valid(d) && OneRecord(d, e, partition, limits)
    ensures Grew(d.results, e.results)
  {
    HeadIs(d);
    hide Valid, Settled, OutcomesOf, Current, Full, Tied, Topical;
    if partition.Some? {
      var k := Key(d.queue[0].topic, partition.value);
      if Full(Current(Added(d, k), k), limits) {
        var r :| e == Settled(Added(d, k), k, OutcomesOf(k, r, |Buffered(Added(d, k), k)|));
        ValidAdded(d, k);
        SettledAnswers(Added(d, k), k, r);
      }
    }
  }

  /** The batches that are no longer in the buffer have been answered. */
  predicate AllSettled(results: map<nat, Outcome>, first: map<Key, Batch>, left: map<Key, Batch>) {
    forall k :: k in first && k !in left ==> Resolved(results, first[k], true) || Resolved(results, first[k], false)
  }

  predicate SomeFailed(results: map<nat, Outcome>, first: map<Key, Batch>, left: map<Key, Batch>) {
    exists k :: k in first && k !in left && Resolved(results, first[k], false)
  }

  lemma NoneSettled(results: map<nat, Outcome>, first: map<Key, Batch>)
    ensures AllSettled(results, first, first) && !SomeFailed(results, first, first)
  {}

  lemma EachSettled(results: map<nat, Outcome>, first: map<Key, Batch>)
    requires AllSettled(results, first, map[])
    ensures forall k :: k in first ==> Resolved(results, first[k], true) || Resolved(results, first[k], false)
    ensures SomeFailed(results, first, map[]) <==> exists k :: k in first && Resolved(results, first[k], false)
  {
    hide Resolved;
  }

  lemma AnswerOne(before: map<nat, Outcome>, after: map<nat, Outcome>, first: map<Key, Batch>, left: map<Key, Batch>,
                  key: Key, ok: bool)
    requires AllSettled(before, first, left) && Grew(before, after)
    requires key in first && key in left && first[key].futures != [] && Resolved(after, first[key], ok)
    ensures AllSettled(after, first, left - {key})
    ensures SomeFailed(after, first, left - {key}) <==> SomeFailed(before, first, left) || !ok
  {
    hide Resolved, Grew;
    ResolvedOnce(after, first[key]);
    forall k | k in first && k !in left
      ensures Resolved(before, first[k], true) <==> Resolved(after, first[k], true)
      ensures Resolved(before, first[k], false) <==> Resolved(after, first[k], false)
    {
      ResolvedStays(before, after, first[k]);
    }
  }

  class Worker {
    const client: Client
    const batchSize: nat
    const batchBytes: nat
    const recordLimit: nat           // what callers respect: no record's estimate is larger
    const partitions: nat -> Option<Int32>  // the partition chosen for each record, if its context lives
    var queue: seq<Item>
    var batches: map<Key, Batch>
    var results: map<nat, Outcome>
    var enqueued: seq<Item>
    var taken: nat
    var destination: map<nat, Key>
    var routed: map<Key, seq<nat>>
    var passed: map<Key, seq<nat>>
    var replies: seq<Reply>          // what the flushes were answered
    var arrivals: nat                // how many records callers will still queue during this step
    ghost var marks: Marks           // which delivery each record was part of

    function Snapshot(): Desk
      reads this
    {
      Desk(queue, batches, results, enqueued, taken, destination, routed, passed)
    }

    ghost predicate Configured()
      reads client
    {
      Limited() && ValidConfig(client.cfg) && Reachable(client.cfg, client.Snapshot())
    }

    predicate Limited() {
      0 < batchSize && 0 < batchBytes && batchBytes + recordLimit + 57 <= MAX_INT32
    }

    predicate Open(b: Batch) {
      0 < |b.messages| < batchSize && b.bytes < batchBytes
    }

    function Bounds(): Limits {
      Limits(batchSize, batchBytes)
    }

    /** The bookkeeping is in order, every buffered batch is non-empty and below both limits. */
    ghost predicate Tidy()
      reads this
    {
      && Valid(Snapshot())
      && (forall k :: k in batches ==> Open(batches[k]))
      && forall i :: 0 <= i < |enqueued| ==> Estimate(enqueued[i].message) <= recordLimit
    }

    /** Whatever was completed with metadata has its delivery among the client's calls. */
    ghost predicate Truthful()
      reads this, client
    {
      Named(Snapshot(), client.Snapshot(), marks, Bounds())
    }

    ghost predicate Ready()
      reads this, client
    {
      Tidy() && Truthful()
    }

    constructor (client: Client, partitions: nat -> Option<Int32>, batchSize: nat, batchBytes: nat, recordLimit: nat)
      requires 0 < batchSize && 0 < batchBytes && batchBytes + recordLimit + 57 <= MAX_INT32
      requires ValidConfig(client.cfg) && Reachable(client.cfg, client.Snapshot())
      ensures Ready() && Configured() && Snapshot() == EMPTY && replies == []
      ensures this.client == client && this.partitions == partitions && Bounds() == Limits(batchSize, batchBytes)
    {
      this.partitions, replies := partitions, [];
      this.client, this.batchSize, this.batchBytes, this.recordLimit := client, batchSize, batchBytes, recordLimit;
      queue, batches, results, enqueued, taken := [], map[], map[], [], 0;
      destination, routed, passed, arrivals, marks := map[], map[], map[], 0, map[];
      new;
      hide Reachable;
      EmptyIsValid();
    }

    // ----------------------------------------------------------------- the callers

    /** `SendAsync`: a caller queues a record and gets its future. */
    method Enqueue(topic: Bytes, message: Message) returns (future: nat)
      requires Ready() && Estimate(message) <= recordLimit
      modifies this`queue, this`enqueued
      ensures Ready() && future == |old(enqueued)|
      ensures Snapshot() == Queued(old(Snapshot()), topic, message)
    {
      ValidQueued(Snapshot(), topic, message);
      QueuedQuietly(Snapshot(), topic, message);
      NamedQuietly(Snapshot(), Queued(Snapshot(), topic, message), client.Snapshot(), marks, Bounds());
      hide Valid, Named, Quietly, Estimate, EstimateAll;
      future := |enqueued|;
      var item := Item(future, topic, message);
      enqueued := enqueued + [item];
      queue := queue + [item];
    }

    /** Callers queue some of the records that arrive during the worker's current step. */
    method Arrive()
      requires Ready()
      modifies this`queue, this`enqueued, this`arrivals
      ensures Ready() && old(enqueued) <= enqueued
      ensures |queue| + arrivals <= |old(queue)| + old(arrivals)
    {
      hide Valid, Named, Estimate;
      var more: bool := *;
      while arrivals > 0 && more
        invariant Ready() && old(enqueued) <= enqueued
        invariant |queue| + arrivals <= |old(queue)| + old(arrivals)
        decreases arrivals
      {
        var topic: Bytes := *;
        var message: Message := *;
        if Estimate(message) <= recordLimit {
          ghost var d := Snapshot();
          var _ := Enqueue(topic, message);
          assert Snapshot().queue == Queued(d, topic, message).queue;
          assert Snapshot().enqueued == Queued(d, topic, message).enqueued;
        }
        arrivals := arrivals - 1;
        more := *;
      }
    }

    // ------------------------------------------------------------------- futures

    /** `complete`: the channel has room for one result, so it must still be empty. */
    method Complete(future: nat, outcome: Outcome)
      requires future !in results
      modifies this`results
      ensures results == old(results)[future := outcome]
    {
      results := results[future := outcome];
    }

    method CompleteBatch(futures: seq<nat>, key: Key, result: Result, metadata: seq<Metadata>)
      requires Increasing(futures) && forall i :: 0 <= i < |futures| ==> futures[i] !in results
      requires if result.Stored? then Numbered(metadata, key, result.offset, |futures|) else metadata == []
      modifies this`results
      ensures results == CompleteAll(old(results), futures, OutcomesOf(key, result, |futures|))
    {
      var outcomes := OutcomesOf(key, result, |futures|);
      for index := 0 to |futures|
        invariant results == CompleteAll(old(results), futures[..index], outcomes[..index])
      {
        CompleteAllKeys(old(results), futures[..index], outcomes[..index]);
        assert futures[..index + 1][..index] == futures[..index];
        assert outcomes[..index + 1][..index] == outcomes[..index];
        if result.Stored? {
          assert index < |metadata|;  // no future is left without metadata
          Complete(futures[index], Ok(metadata[index]));
        } else {
          Complete(futures[index], Err);
        }
      }
      assert futures[..|futures|] == futures && outcomes[..|futures|] == outcomes;
    }

    // --------------------------------------------------------------------- batches

    /** A delivery, as the client reports it, keeps the marks true. */
    lemma ReportIsNamed(d: Desk, s: State, before: Marks, key: Key, c: nat, result: Result)
      requires Valid(d) && Named(d, s, before, Bounds()) && Bounded(Current(d, key).messages, Bounds())
      requires Reachable(client.cfg, s) && client.since == s && |s.calls| <= c
      requires client.Here(c, Deliver(key, Current(d, key).messages), Done(result))
      ensures Reachable(client.cfg, client.Snapshot())
      ensures Named(Settled(d, key, OutcomesOf(key, result, |Buffered(d, key)|)), client.Snapshot(),
                    Marked(before, Buffered(d, key), c), Bounds())
    {
      var t := client.Snapshot();
      assert Delivers(client.cfg, d, s, t, key, c, result, Bounds()) by {
        hide Reachable, Later, Bounded, Current, Valid, Named;
      }
      hide *;
      NamedSettled(client.cfg, d, s, t, before, key, c, result, Bounds());
    }

    /** Delivers a batch through the producer and completes its futures with what came of it. */
    method FlushBatch(key: Key) returns (c: nat, result: Result)
      requires Valid(Snapshot()) && Truthful() && Configured() && key in batches
      requires Bounded(batches[key].messages, Bounds()) && Sized31(batches[key].messages)
      modifies this`results, this`passed, this`marks, client
      ensures Configured()
      ensures Snapshot() == Settled(old(Snapshot()), key, OutcomesOf(key, result, |Buffered(old(Snapshot()), key)|))
                            .(batches := old(batches))
      ensures c == |old(client.calls)| && client.Here(c, Deliver(key, old(batches[key].messages)), Done(result))
      ensures marks == Marked(old(marks), Buffered(old(Snapshot()), key), c)
      ensures Named(Settled(old(Snapshot()), key, OutcomesOf(key, result, |Buffered(old(Snapshot()), key)|)),
                    client.Snapshot(), marks, Bounds())
    {
      ghost var d, s, before := Snapshot(), client.Snapshot(), marks;
      hide Reachable, Sized31, Valid, Numbered, Named, Bounded, Marked, Settled, OutcomesOf;
      var metadata;
      ghost var answers;
      c, result, metadata, answers := client.ProduceRecords(key, batches[key].messages);
      ReportIsNamed(d, s, before, key, c, result);
      BatchAligned(Snapshot(), key);
      SettleBatch(key, result, metadata);
      marks := Marked(marks, batches[key].futures, c);
    }

    method SettleBatch(key: Key, result: Result, metadata: seq<Metadata>)
      requires Valid(Snapshot()) && key in batches
      requires if result.Stored? then Numbered(metadata, key, result.offset, |batches[key].futures|) else metadata == []
      modifies this`results, this`passed
      ensures Snapshot() == Settled(old(Snapshot()), key, OutcomesOf(key, result, |Buffered(old(Snapshot()), key)|))
                            .(batches := old(batches))
    {
      var batch := batches[key];
      FreshFutures(Snapshot(), key);
      hide Valid, Increasing, CompleteAll, Numbered, OutcomesOf;
      CompleteBatch(batch.futures, key, result, metadata);
      passed := passed[key := (if key in passed then passed[key] else []) + batch.futures];
    }

    // ----------------------------------------------------------------- one record

    /** The record at the head of the queue: it fails at once, or it joins the batch of its key,
        and a batch that has reached a limit is delivered. */
    method AddAsyncRecord()
      requires Ready() && Configured() && queue != []
      modifies this`queue, this`taken, this`batches, this`results, this`destination, this`routed, this`passed, this`marks, client
      ensures Ready() && Configured() && Grew(old(results), results)
      ensures OneRecord(old(Snapshot()), Snapshot(), partitions(old(taken)), Bounds())
      ensures enqueued == old(enqueued) && taken == old(taken) + 1 && |queue| == |old(queue)| - 1
    {
      ghost var before := Snapshot();
      hide Reachable, Named, Quietly, Estimate, EstimateAll, Valid, Grew, Full;
      var item := queue[0];
      HeadIs(before);
      var partition := partitions(taken);
      if partition.None? {
        ValidDismissed(before);
        DismissedQuietly(before);
        NamedQuietly(before, Dismissed(before), client.Snapshot(), marks, Bounds());
        queue, taken := queue[1..], taken + 1;
        Complete(item.future, Err);
        assert Snapshot() == Dismissed(before);
      } else {
        Route(Key(item.topic, partition.value));
      }
      OneRecordTakes(before, Snapshot(), partition, Bounds());
      OneRecordGrows(before, Snapshot(), partition, Bounds());
    }

    method Route(key: Key)
      requires Ready() && Configured() && queue != [] && key.topic == queue[0].topic
      modifies this`queue, this`taken, this`batches, this`results, this`destination, this`routed, this`passed, this`marks, client
      ensures Ready() && Configured() && OneRecord(old(Snapshot()), Snapshot(), Some(key.partition), Bounds())
    {
      ghost var before := Snapshot();
      hide Valid, Reachable, Named, Bounded, Estimate, EstimateAll, Sized31, Added, Settled, OutcomesOf;
      var full := Join(key);
      ghost var joined := Added(before, key);
      assert key == Key(before.queue[0].topic, key.partition);
      if full {
        var c, r := FlushBatch(key);
        batches := batches - {key};
        ghost var outcomes := OutcomesOf(key, r, |Buffered(joined, key)|);
        SettledRemoves(joined, key, outcomes);
        ValidSettled(joined, key, outcomes);
      }
    }

    /** Appends the head of the queue to the batch of `key`; tells whether the batch is full. */
    method Join(key: Key) returns (full: bool)
      requires Ready() && Limited() && queue != [] && key.topic == queue[0].topic
      modifies this`queue, this`taken, this`batches, this`destination, this`routed
      ensures Snapshot() == Added(old(Snapshot()), key) && Valid(Snapshot()) && Truthful() && key in batches
      ensures full <==> |batches[key].messages| >= batchSize || batches[key].bytes >= batchBytes
      ensures forall k :: k in batches && (k != key || !full) ==> Open(batches[k])
      ensures Bounded(batches[key].messages, Bounds()) && Sized31(batches[key].messages)
      ensures forall i :: 0 <= i < |enqueued| ==> Estimate(enqueued[i].message) <= recordLimit
    {
      ghost var before := Snapshot();
      JoinIsSized(key);
      ValidAdded(before, key);
      AddedQuietly(before, key);
      NamedQuietly(before, Added(before, key), client.Snapshot(), marks, Bounds());
      hide Valid, Named, Quietly, EstimateAll, Estimate, Sized31, Bounded;
      Append(key);
      full := |batches[key].messages| >= batchSize || batches[key].bytes >= batchBytes;
    }

    method Append(key: Key)
      requires queue != []
      modifies this`queue, this`taken, this`batches, this`destination, this`routed
      ensures Snapshot() == Added(old(Snapshot()), key)
    {
      hide Estimate, Current, RoutedTo;
      var item, batch, history := queue[0], Current(Snapshot(), key), RoutedTo(Snapshot(), key);
      var size := EstimateRecordBytes(item.message);
      queue, taken := queue[1..], taken + 1;
      batches := batches[key := Batch(batch.messages + [item.message], batch.futures + [item.future],
                                      batch.bytes + size)];
      destination := destination[item.future := key];
      routed := routed[key := history + [item.future]];
    }

    /** Whatever the limits, the batch that the head of the queue would join was below them, and can
        be encoded. */
    lemma JoinIsSized(key: Key)
      requires Tidy() && Limited() && queue != []
      ensures Bounded(Current(Snapshot(), key).messages + [queue[0].message], Bounds())
      ensures Sized31(Current(Snapshot(), key).messages + [queue[0].message])
    {
      HeadIs(Snapshot());
      KeyOf(Snapshot(), key);
      var messages, m := Current(Snapshot(), key).messages, queue[0].message;
      assert (messages + [m])[..|messages|] == messages;
      assert EstimateAll(messages) < batchBytes;
      hide Valid, Reachable, EstimateAll, Estimate, Sized31;
      BoundedBatchEncodes(messages + [m], batchBytes, recordLimit);
    }

    // --------------------------------------------------------------- drain and flush

    /** Takes records until the queue is empty; callers may go on queueing meanwhile. */
    method DrainAsyncRecords()
      requires Ready() && Configured()
      modifies this, client
      ensures Ready() && Configured() && queue == [] && old(enqueued) <= enqueued && Grew(old(results), results)
      ensures replies == old(replies)
    {
      hide Ready, Configured, OneRecord;
      while queue != []
        invariant Ready() && Configured() && old(enqueued) <= enqueued && Grew(old(results), results)
        invariant replies == old(replies)
        decreases |queue| + arrivals
      {
        AddAsyncRecord();
        Arrive();
      }
    }

    /** Delivers every buffered batch, in any order; callers may go on queueing meanwhile.  It
        reports a failure exactly when the futures of some batch were completed with an error. */
    method FlushBatches() returns (failed: bool)
      requires Ready() && Configured()
      modifies this, client
      ensures Ready() && Configured() && batches == map[] && taken == old(taken) && old(enqueued) <= enqueued
      ensures Grew(old(results), results) && replies == old(replies)
      ensures forall k :: k in old(batches) ==>
                            Resolved(results, old(batches)[k], true) || Resolved(results, old(batches)[k], false)
      ensures failed <==> exists k :: k in old(batches) && Resolved(results, old(batches)[k], false)
    {
      failed := false;
      GrewSelf(results);
      hide Ready, Configured, Resolved, Grew, AllSettled, SomeFailed;
      ghost var first := batches;
      NoneEmpty();
      NoneSettled(results, first);
      while batches != map[]
        invariant Ready() && Configured() && taken == old(taken) && old(enqueued) <= enqueued
        invariant forall k :: k in batches ==> k in first && batches[k] == first[k]
        invariant Grew(old(results), results) && replies == old(replies)
        invariant AllSettled(results, first, batches) && failed == SomeFailed(results, first, batches)
        invariant forall k :: k in first ==> first[k].futures != []
        decreases |batches|
      {
        var key :| key in batches;
        ghost var before, left := results, batches;
        var ok := FlushOne(key);
        AnswerOne(before, results, first, left, key, ok);
        GrewTwice(old(results), before, results);
        failed := failed || !ok;
        Arrive();
      }
      EachSettled(results, first);
    }

    method FlushOne(key: Key) returns (ok: bool)
      requires Ready() && Configured() && key in batches
      modifies this`batches, this`results, this`passed, this`marks, client
      ensures Ready() && Configured() && batches == old(batches) - {key}
      ensures Grew(old(results), results) && Resolved(results, old(batches[key]), ok)
    {
      ghost var before := Snapshot();
      BufferIsSized(key);
      hide Valid, Named, Bounded, Reachable, Estimate, EstimateAll, Sized31, Settled, OutcomesOf, Resolved, Grew, Marked;
      var c, r := FlushBatch(key);
      batches := batches - {key};
      ghost var outcomes := OutcomesOf(key, r, |Buffered(before, key)|);
      SettledRemoves(before, key, outcomes);
      SettledAnswers(before, key, r);
      ValidSettled(before, key, outcomes);
      ok := r.Stored?;
    }

    lemma NoneEmpty()
      requires Ready()
      ensures forall k :: k in batches ==> batches[k].futures != []
    {
      hide Valid, Estimate;
      forall k | k in batches
        ensures batches[k].futures != []
      {
        BatchAligned(Snapshot(), k);
      }
    }

    lemma BufferIsSized(key: Key)
      requires Tidy() && Limited() && key in batches
      ensures Bounded(batches[key].messages, Bounds()) && Sized31(batches[key].messages)
    {
      KeyOf(Snapshot(), key);
      hide Valid, Reachable, Increasing;
      RecordsEstimate(batches[key].messages);
    }

    /** A flush: when it is answered, every record queued before the end of its drain, and so
        every record queued before it, is completed. */
    method Flush() returns (failed: bool, drained: nat)
      requires Ready() && Configured()
      modifies this, client
      ensures Ready() && Configured() && batches == map[]
      ensures |old(enqueued)| <= drained <= |enqueued| && old(enqueued) <= enqueued && Grew(old(results), results)
      ensures replies == old(replies) && Fulfilled(Reply(drained, failed), results)
    {
      hide Reachable, Named, Estimate, EstimateAll;
      DrainAsyncRecords();
      drained := |enqueued|;
      assert taken == drained;
      failed := FlushBatches();
    }

    /** Any number of records may be queued during the next step. */
    method Expect()
      requires Ready()
      modifies this`arrivals
      ensures Ready()
    {
      hide Valid, Named, Estimate;
      arrivals := *;
    }

    /** One event: a queued record is taken, a flush is answered once it is done, a tick empties the
        buffer. */
    method Handle(event: Event)
      requires Ready() && Configured()
      modifies this, client
      ensures Ready() && Configured() && old(enqueued) <= enqueued && Grew(old(results), results)
      ensures event.ItemReady? && old(queue) != [] ==> taken == old(taken) + 1
      ensures event.Tick? ==> batches == map[]
      ensures event.FlushRequest? ==>
                && batches == map[] && |replies| == |old(replies)| + 1 && replies[..|old(replies)|] == old(replies)
                && |old(enqueued)| <= replies[|old(replies)|].drained
                && Fulfilled(replies[|old(replies)|], results)
      ensures !event.FlushRequest? ==> replies == old(replies)
    {
      hide Ready, Configured, OneRecord, Grew;
      GrewSelf(results);
      if event.ItemReady? && queue != [] {
        AddAsyncRecord();
      } else if event.FlushRequest? {
        var failed, drained := Flush();
        Respond(Reply(drained, failed));
      } else if event.Tick? {
        var _ := FlushBatches();
      }
    }

    method Respond(reply: Reply)
      requires Ready()
      modifies this`replies
      ensures Ready() && replies == old(replies) + [reply]
    {
      hide Valid, Named, Estimate;
      replies := replies + [reply];
    }

    /** The worker: it handles events as they come and, once it is stopped, drains and flushes a
        last time.  Every flush request has got its answer. */
    method RunWorker(events: seq<Event>) returns (drained: nat)
      requires Ready() && Configured() && forall i :: 0 <= i < |replies| ==> Fulfilled(replies[i], results)
      modifies this, client
      ensures Ready() && Configured() && batches == map[]
      ensures |old(enqueued)| <= drained <= |enqueued| && old(enqueued) <= enqueued && Grew(old(results), results)
      ensures forall i :: 0 <= i < drained ==> i in results
      ensures |replies| == |old(replies)| + Requests(events)
      ensures forall i :: 0 <= i < |replies| ==> Fulfilled(replies[i], results)
    {
      hide Ready, Configured, OneRecord, Grew, Fulfilled;
      GrewSelf(results);
      for e := 0 to |events|
        invariant Ready() && Configured() && old(enqueued) <= enqueued && Grew(old(results), results)
        invariant |replies| == |old(replies)| + Requests(events[..e])
        invariant forall i :: 0 <= i < |replies| ==> Fulfilled(replies[i], results)
      {
        Expect();
        Arrive();
        ghost var before := results;
        assert events[..e + 1][..e] == events[..e];
        Handle(events[e]);
        GrewTwice(old(results), before, results);
        FulfilledStays(before, results, replies);
      }
      assert events[..|events|] == events;
      Expect();
      ghost var before := results;
      var failed, last := Flush();
      GrewTwice(old(results), before, results);
      FulfilledStays(before, results, replies);
      drained := last;
      FulfilledAt(Reply(last, failed), results);
    }
  }
}
