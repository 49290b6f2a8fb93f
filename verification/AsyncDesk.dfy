/** The books of the producer's background worker (producer/async.go): the queue, the buffered
    batches and the futures, and what each of its steps does to them. */
module AsyncDesk {
  import opened Wrappers
  import opened Wire
  import opened RecordBatches
  import opened ProducerBatches
  import opened Delivery
  import opened Producer

  /** A queued record; its future is the number of records queued before it. */
  datatype Item = Item(future: nat, topic: Bytes, message: Message)

  datatype Batch = Batch(messages: seq<Message>, futures: seq<nat>, bytes: nat)

  datatype Outcome = Err | Ok(metadata: Metadata)

  /** The limits of a worker. */
  datatype Limits = Limits(batchSize: nat, batchBytes: nat)

  predicate Increasing(s: seq<nat>) {
    forall i, j :: 0 <= i < j < |s| ==> s[i] < s[j]
  }

  /** Batches are bounded by what their last record adds: the encoding of a batch that was below
      the byte limit before its last record exceeds the limit by less than that record's estimate
      plus the fixed header. */
  lemma OvershootIsBounded(messages: seq<Message>, limit: nat, id: Identity, leaderEpoch: Int32, now: Int64)
    requires messages != [] && EstimateAll(messages[..|messages| - 1]) < limit
    ensures |BatchBytes(ProducerBatch(messages, id, leaderEpoch, now))| + 3 * |messages| + 2 * HeaderCount(messages)
         <  limit + Estimate(messages[|messages| - 1]) + 57
  {
    CounterPredictsSize(messages, id, leaderEpoch, now);
  }

  /** So no batch the worker sends can outgrow the 31-bit lengths. */
  lemma BoundedBatchEncodes(messages: seq<Message>, limit: nat, recordLimit: nat)
    requires messages != [] && EstimateAll(messages[..|messages| - 1]) < limit
    requires Estimate(messages[|messages| - 1]) <= recordLimit && limit + recordLimit + 57 <= MAX_INT32
    ensures Sized31(messages)
  {
    RecordsEstimate(messages);
  }

  // ------------------------------------------------------------ the worker's bookkeeping

  /** The queue, the buffer and the futures, with their history. */
  datatype Desk = Desk(
    queue: seq<Item>,
    batches: map<Key, Batch>,
    results: map<nat, Outcome>,    // what was sent on each future's channel
    enqueued: seq<Item>,           // every record ever queued
    taken: nat,                    // how many of them were dequeued
    destination: map<nat, Key>,    // where the dequeued ones were routed
    routed: map<Key, seq<nat>>,    // the same by key, in the order of routing
    passed: map<Key, seq<nat>>)    // what was passed to produceRecords, in order

  const EMPTY := Desk([], map[], map[], [], 0, map[], map[], map[])

  function RoutedTo(d: Desk, k: Key): seq<nat> { if k in d.routed then d.routed[k] else [] }

  function Passed(d: Desk, k: Key): seq<nat> { if k in d.passed then d.passed[k] else [] }

  function Current(d: Desk, k: Key): Batch { if k in d.batches then d.batches[k] else Batch([], [], 0) }

  function Buffered(d: Desk, k: Key): seq<nat> { Current(d, k).futures }

  predicate QueueOk(d: Desk) {
    && d.taken <= |d.enqueued| && d.queue == d.enqueued[d.taken..]
    && forall i :: 0 <= i < |d.enqueued| ==> d.enqueued[i].future == i
  }

  /** The records and the futures of a batch belong together, were routed to its key, in order,
      and are not completed; its counter is the sum of the estimates. */
  predicate Holds(d: Desk, k: Key) {
    var b := Current(d, k);
    && |b.messages| == |b.futures| && Increasing(b.futures) && b.bytes == EstimateAll(b.messages)
    && forall j :: 0 <= j < |b.futures| ==> InPlace(d, k, b.futures[j], b.messages[j])
  }

  predicate InPlace(d: Desk, k: Key, f: nat, message: Message) {
    && f < d.taken && f < |d.enqueued| && f !in d.results
    && f in d.destination && d.destination[f] == k
    && message == d.enqueued[f].message
  }

  /** Every dequeued record is completed or in the batch of its key. */
  predicate Placed(d: Desk) {
    && (forall f :: f in d.results ==> f < d.taken)
    && forall i :: 0 <= i < d.taken ==>
                     i in d.results || (i in d.destination && i in Buffered(d, d.destination[i]))
  }

  /** What was routed to a key is what was passed on for it, followed by what is buffered. */
  predicate InOrder(d: Desk, k: Key) {
    && RoutedTo(d, k) == Passed(d, k) + Buffered(d, k)
    && Increasing(RoutedTo(d, k)) && forall i :: 0 <= i < |RoutedTo(d, k)| ==> RoutedTo(d, k)[i] < d.taken
  }

  /** The routes by key are exactly the routes by record. */
  ghost predicate Tied(d: Desk) {
    && (forall f :: f in d.destination ==> f in RoutedTo(d, d.destination[f]))
    && forall k, f :: f in RoutedTo(d, k) ==> f in d.destination && d.destination[f] == k
  }

  /** Every record was routed to a partition of its own topic. */
  predicate Topical(d: Desk) {
    forall f :: f in d.destination ==> f < |d.enqueued| && d.destination[f].topic == d.enqueued[f].topic
  }

  ghost predicate Valid(d: Desk) {
    QueueOk(d) && Placed(d) && (forall k :: Holds(d, k)) && (forall k :: InOrder(d, k)) && Tied(d) && Topical(d)
  }

  /** Every record ever queued is in exactly one place: still queued, or completed, or at one
      position of one batch. */
  lemma Conservation(d: Desk, i: nat)
    requires Valid(d) && i < |d.enqueued|
    ensures i >= d.taken <==> d.enqueued[i] in d.queue
    ensures i >= d.taken ==> i !in d.results && forall k :: i !in Buffered(d, k)
    ensures i < d.taken ==> (i in d.results <==> forall k :: i !in Buffered(d, k))
    ensures forall k, l, x, y ::
              0 <= x < |Buffered(d, k)| && 0 <= y < |Buffered(d, l)| && Buffered(d, k)[x] == i == Buffered(d, l)[y]
              ==> k == l && x == y
  {
    hide Tied;
    hide EstimateAll, Current;
    if i >= d.taken {
      assert d.queue[i - d.taken] == d.enqueued[i];
    }
    if d.enqueued[i] in d.queue {
      var q :| 0 <= q < |d.queue| && d.queue[q] == d.enqueued[i];
      assert d.enqueued[d.taken + q].future == d.enqueued[i].future;
    }
    forall k | i in Buffered(d, k)
      ensures i < d.taken && i !in d.results && i in d.destination && d.destination[i] == k
    {
      assert Holds(d, k);
    }
    forall k, l, x, y |
      0 <= x < |Buffered(d, k)| && 0 <= y < |Buffered(d, l)| && Buffered(d, k)[x] == i == Buffered(d, l)[y]
      ensures k == l && x == y
    {
      assert Holds(d, k) && Holds(d, l);
    }
  }

  // The worker's steps.

  function Queued(d: Desk, topic: Bytes, message: Message): Desk {
    var item := Item(|d.enqueued|, topic, message);
    d.(queue := d.queue + [item], enqueued := d.enqueued + [item])
  }

  /** The record at the head of the queue fails before it has a partition. */
  function Dismissed(d: Desk): Desk
    requires d.queue != []
  {
    d.(queue := d.queue[1..], taken := d.taken + 1, results := d.results[d.queue[0].future := Err])
  }

  /** The record at the head of the queue joins the batch of a key. */
  function Added(d: Desk, k: Key): Desk
    requires d.queue != []
  {
    var item := d.queue[0];
    var b := Current(d, k);
    d.(queue := d.queue[1..], taken := d.taken + 1,
       batches := d.batches[k := Batch(b.messages + [item.message], b.futures + [item.future],
                                       b.bytes + Estimate(item.message))],
       destination := d.destination[item.future := k],
       routed := d.routed[k := RoutedTo(d, k) + [item.future]])
  }

  function CompleteAll(results: map<nat, Outcome>, futures: seq<nat>, outcomes: seq<Outcome>): map<nat, Outcome>
    requires |futures| == |outcomes|
  {
    if futures == [] then results
    else
      var n := |futures| - 1;
      CompleteAll(results, futures[..n], outcomes[..n])[futures[n] := outcomes[n]]
  }

  /** The batch of a key is delivered, its futures are completed, and it leaves the buffer. */
  function Settled(d: Desk, k: Key, outcomes: seq<Outcome>): Desk
    requires |outcomes| == |Buffered(d, k)|
  {
    d.(batches := d.batches - {k},
       results := CompleteAll(d.results, Buffered(d, k), outcomes),
       passed := d.passed[k := Passed(d, k) + Buffered(d, k)])
  }

  lemma {:induction false} CompleteAllKeys(results: map<nat, Outcome>, futures: seq<nat>, outcomes: seq<Outcome>)
    requires |futures| == |outcomes|
    ensures forall f :: f in CompleteAll(results, futures, outcomes) <==> f in results || f in futures
  {
    if futures != [] {
      var n := |futures| - 1;
      CompleteAllKeys(results, futures[..n], outcomes[..n]);
      assert futures == futures[..n] + [futures[n]];
    }
  }

  /** Each future gets its own outcome, and nobody else's changes. */
  lemma {:induction false} CompleteAllAt(results: map<nat, Outcome>, futures: seq<nat>, outcomes: seq<Outcome>, f: nat)
    requires |futures| == |outcomes| && Increasing(futures)
    ensures var after := CompleteAll(results, futures, outcomes);
            && (f !in futures && f in results ==> f in after && after[f] == results[f])
            && (forall i :: 0 <= i < |futures| && futures[i] == f ==> f in after && after[f] == outcomes[i])
  {
    if futures != [] {
      var n := |futures| - 1;
      CompleteAllAt(results, futures[..n], outcomes[..n], f);
    }
  }

  lemma ValidQueued(d: Desk, topic: Bytes, message: Message)
    requires Valid(d)
    ensures Valid(Queued(d, topic, message))
  {
    QueuedPlaced(d, topic, message);
    TiedSame(d, Queued(d, topic, message));
    TopicalSame(d, Queued(d, topic, message));
    hide Tied, Topical, QueueOk, Placed, Queued;
    forall k
      ensures Holds(Queued(d, topic, message), k) && InOrder(Queued(d, topic, message), k)
    {
      QueuedKey(d, topic, message, k);
    }
  }

  lemma QueuedPlaced(d: Desk, topic: Bytes, message: Message)
    requires Valid(d)
    ensures QueueOk(Queued(d, topic, message)) && Placed(Queued(d, topic, message))
  {
    hide Tied, Holds, InOrder;
    assert forall k :: Current(Queued(d, topic, message), k) == Current(d, k);
    hide Current;
  }

  lemma QueuedKey(d: Desk, topic: Bytes, message: Message, k: Key)
    requires Valid(d)
    ensures Holds(Queued(d, topic, message), k) && InOrder(Queued(d, topic, message), k)
  {
    KeyOf(d, k);
    hide Valid, EstimateAll, Increasing;
    var e := Queued(d, topic, message);
    assert Current(e, k) == Current(d, k) && RoutedTo(e, k) == RoutedTo(d, k) && Passed(e, k) == Passed(d, k);
    hide Current, RoutedTo, Passed;
  }

  lemma TiedSame(d: Desk, e: Desk)
    requires Tied(d) && e.destination == d.destination && e.routed == d.routed
    ensures Tied(e)
  {
    assert forall k :: RoutedTo(e, k) == RoutedTo(d, k);
    hide RoutedTo;
  }

  lemma TopicalSame(d: Desk, e: Desk)
    requires Topical(d) && e.destination == d.destination && d.enqueued <= e.enqueued
    ensures Topical(e)
  {}

  lemma TopicalAdded(d: Desk, k: Key)
    requires Valid(d) && d.queue != [] && k.topic == d.queue[0].topic
    ensures Topical(Added(d, k))
  {
    HeadIs(d);
    hide Tied, Holds, Placed, InOrder, QueueOk, Current, RoutedTo;
  }

  lemma TiedAdded(d: Desk, k: Key)
    requires Valid(d) && d.queue != []
    ensures Tied(Added(d, k))
  {
    HeadIs(d);
    var e := Added(d, k);
    assert e.destination == d.destination[d.taken := k];
    assert RoutedTo(e, k) == RoutedTo(d, k) + [d.taken];
    assert forall q :: q != k ==> RoutedTo(e, q) == RoutedTo(d, q);
    hide Added, RoutedTo, Passed, Current, Holds, Placed, QueueOk, Valid, InOrder, Increasing, Tied;
    assert d.taken !in d.destination by {
      if d.taken in d.destination {
        RoutedBack(d, d.taken);
        RoutedIs(d, d.destination[d.taken], d.taken);
      }
    }
    forall f | f in e.destination
      ensures f in RoutedTo(e, e.destination[f])
    {
      if f != d.taken {
        RoutedBack(d, f);
      }
    }
    forall q, f | f in RoutedTo(e, q)
      ensures f in e.destination && e.destination[f] == q
    {
      if f in RoutedTo(d, q) {
        RoutedIs(d, q, f);
      }
    }
    TiedIs(e);
  }

  lemma TiedIs(d: Desk)
    requires forall f :: f in d.destination ==> f in RoutedTo(d, d.destination[f])
    requires forall k, f :: f in RoutedTo(d, k) ==> f in d.destination && d.destination[f] == k
    ensures Tied(d)
  {}

  lemma RoutedIs(d: Desk, k: Key, f: nat)
    requires Valid(d) && f in RoutedTo(d, k)
    ensures f < d.taken && f in d.destination && d.destination[f] == k
  {
    hide Holds, Placed, QueueOk, RoutedTo, Passed, Current;
    assert InOrder(d, k);
  }

  /** Whatever is buffered or was passed on for a key was queued for the key's topic. */
  lemma TopicOf(d: Desk, k: Key, f: nat)
    requires Valid(d) && (f in Buffered(d, k) || f in Passed(d, k))
    ensures f < |d.enqueued| && d.enqueued[f].topic == k.topic
  {
    KeyOf(d, k);
    hide Holds, Placed, QueueOk, Increasing, RoutedTo, Passed, Current, Valid;
    assert f in RoutedTo(d, k);
    RoutedIs(d, k, f);
    TopicalAt(d, f);
  }

  lemma TopicalAt(d: Desk, f: nat)
    requires Valid(d) && f in d.destination
    ensures f < |d.enqueued| && d.destination[f].topic == d.enqueued[f].topic
  {
    hide Holds, Placed, QueueOk, InOrder, Tied;
  }

  lemma RoutedBack(d: Desk, f: nat)
    requires Valid(d) && f in d.destination
    ensures f in RoutedTo(d, d.destination[f])
  {
    hide Holds, Placed, QueueOk, RoutedTo, Passed, Current, InOrder;
  }

  lemma HeadIs(d: Desk)
    requires Valid(d) && d.queue != []
    ensures d.taken < |d.enqueued| && d.queue[0] == d.enqueued[d.taken] && d.queue[0].future == d.taken
    ensures d.queue[1..] == d.enqueued[d.taken + 1..]
    ensures d.taken !in d.results
  {
    hide Tied;
  }

  lemma ValidDismissed(d: Desk)
    requires Valid(d) && d.queue != []
    ensures Valid(Dismissed(d))
  {
    DismissedPlaced(d);
    TiedSame(d, Dismissed(d));
    TopicalSame(d, Dismissed(d));
    hide Tied, Topical, QueueOk, Placed, Dismissed;
    forall k
      ensures Holds(Dismissed(d), k) && InOrder(Dismissed(d), k)
    {
      DismissedKey(d, k);
    }
  }

  lemma DismissedPlaced(d: Desk)
    requires Valid(d) && d.queue != []
    ensures QueueOk(Dismissed(d)) && Placed(Dismissed(d))
  {
    HeadIs(d);
    hide Tied, Holds, InOrder;
    assert forall k :: Current(Dismissed(d), k) == Current(d, k);
    hide Current;
  }

  lemma DismissedKey(d: Desk, k: Key)
    requires Valid(d) && d.queue != []
    ensures Holds(Dismissed(d), k) && InOrder(Dismissed(d), k)
  {
    HeadIs(d);
    KeyOf(d, k);
    hide Valid, EstimateAll, Increasing;
    var e := Dismissed(d);
    assert Current(e, k) == Current(d, k) && RoutedTo(e, k) == RoutedTo(d, k) && Passed(e, k) == Passed(d, k);
    hide Current, RoutedTo, Passed;
  }

  lemma EstimateGrows(messages: seq<Message>, m: Message)
    ensures EstimateAll(messages + [m]) == EstimateAll(messages) + Estimate(m)
  {
    assert (messages + [m])[..|messages|] == messages;
  }

  lemma AddedFields(d: Desk, k: Key, q: Key)
    requires Valid(d) && d.queue != []
    ensures var e, m := Added(d, k), d.queue[0].message;
            && (q != k ==> Current(e, q) == Current(d, q) && RoutedTo(e, q) == RoutedTo(d, q))
            && Current(e, k) == Batch(Current(d, k).messages + [m], Buffered(d, k) + [d.taken],
                                      Current(d, k).bytes + Estimate(m))
            && RoutedTo(e, k) == RoutedTo(d, k) + [d.taken]
            && Passed(e, q) == Passed(d, q)
            && e.enqueued == d.enqueued && e.results == d.results && e.taken == d.taken + 1
            && e.destination == d.destination[d.taken := k]
  {
    hide Tied;
    HeadIs(d);
  }

  lemma ValidAdded(d: Desk, k: Key)
    requires Valid(d) && d.queue != [] && k.topic == d.queue[0].topic
    ensures Valid(Added(d, k))
  {
    AddedPlaced(d, k);
    TiedAdded(d, k);
    TopicalAdded(d, k);
    forall q
      ensures Holds(Added(d, k), q) && InOrder(Added(d, k), q)
    {
      hide *;
      if q == k {
        AddedHere(d, k);
      } else {
        AddedElsewhere(d, k, q);
      }
    }
  }

  lemma AddedHere(d: Desk, k: Key)
    requires Valid(d) && d.queue != []
    ensures Holds(Added(d, k), k) && InOrder(Added(d, k), k)
  {
    AddedHolds(d, k);
    AddedInOrder(d, k);
  }

  lemma AddedInOrder(d: Desk, k: Key)
    requires Valid(d) && d.queue != []
    ensures InOrder(Added(d, k), k)
  {
    AddedFields(d, k, k);
    KeyOf(d, k);
    hide Valid, Current, RoutedTo, Passed, Added, QueueOk, Increasing, InPlace, Holds;
    IncreasingGrows(RoutedTo(d, k), d.taken);
    Regrouped(Passed(d, k), Buffered(d, k), d.taken);
  }

  lemma Regrouped(p: seq<nat>, b: seq<nat>, f: nat)
    ensures (p + b) + [f] == p + (b + [f])
  {}

  lemma AddedHolds(d: Desk, k: Key)
    requires Valid(d) && d.queue != []
    ensures Holds(Added(d, k), k)
  {
    var e, b, m := Added(d, k), Current(d, k), d.queue[0].message;
    AddedBatch(d, k);
    HeadInPlace(d, k);
    hide *;
    forall j | 0 <= j < |b.futures|
      ensures b.futures[j] < d.taken && InPlace(e, k, b.futures[j], b.messages[j])
    {
      StaysInPlace(d, k, j);
    }
    IncreasingGrows(b.futures, d.taken);
    HoldsGrows(e, k, b, d.taken, m);
  }

  lemma AddedBatch(d: Desk, k: Key)
    requires Valid(d) && d.queue != []
    ensures var b, m := Current(d, k), d.queue[0].message;
            && Current(Added(d, k), k)
            == Batch(b.messages + [m], b.futures + [d.taken], EstimateAll(b.messages + [m]))
            && |b.messages| == |b.futures| && Increasing(b.futures)
  {
    AddedFields(d, k, k);
    KeyOf(d, k);
    hide Valid, Current, Added, QueueOk, Increasing, EstimateAll, Estimate, InPlace;
    EstimateGrows(Current(d, k).messages, d.queue[0].message);
  }

  lemma HeadInPlace(d: Desk, k: Key)
    requires Valid(d) && d.queue != []
    ensures InPlace(Added(d, k), k, d.taken, d.queue[0].message)
  {
    HeadIs(d);
    AddedFields(d, k, k);
    hide Valid, Current, Added, QueueOk;
  }

  lemma StaysInPlace(d: Desk, k: Key, j: nat)
    requires Valid(d) && d.queue != [] && j < |Buffered(d, k)|
    ensures j < |Current(d, k).messages| && Buffered(d, k)[j] < d.taken
    ensures InPlace(Added(d, k), k, Buffered(d, k)[j], Current(d, k).messages[j])
  {
    KeyOf(d, k);
    AddedFields(d, k, k);
    hide Valid, Current, Added, QueueOk, Increasing, EstimateAll;
    assert InPlace(d, k, Buffered(d, k)[j], Current(d, k).messages[j]);
  }

  lemma HoldsGrows(e: Desk, k: Key, b: Batch, f: nat, m: Message)
    requires Current(e, k) == Batch(b.messages + [m], b.futures + [f], EstimateAll(b.messages + [m]))
    requires |b.messages| == |b.futures| && Increasing(b.futures + [f])
    requires forall j :: 0 <= j < |b.futures| ==> InPlace(e, k, b.futures[j], b.messages[j])
    requires InPlace(e, k, f, m)
    ensures Holds(e, k)
  {
    hide InPlace, EstimateAll, Increasing, Current;
  }

  lemma IncreasingGrows(s: seq<nat>, n: nat)
    requires Increasing(s) && forall i :: 0 <= i < |s| ==> s[i] < n
    ensures Increasing(s + [n])
  {}

  lemma AddedElsewhere(d: Desk, k: Key, q: Key)
    requires Valid(d) && d.queue != [] && q != k
    ensures Holds(Added(d, k), q) && InOrder(Added(d, k), q)
  {
    HeadIs(d);
    AddedFields(d, k, q);
    KeyOf(d, q);
    hide Valid, Current, RoutedTo, Passed, EstimateAll, Estimate, Added, Increasing;
  }

  lemma KeyOf(d: Desk, k: Key)
    requires Valid(d)
    ensures Holds(d, k) && InOrder(d, k)
  {
    hide Tied;
  }

  lemma AddedPlaced(d: Desk, k: Key)
    requires Valid(d) && d.queue != []
    ensures QueueOk(Added(d, k)) && Placed(Added(d, k))
  {
    hide Tied;
    HeadIs(d);
    var e := Added(d, k);
    hide Current, RoutedTo, Passed, EstimateAll, Estimate, Increasing;
    forall i | 0 <= i < e.taken
      ensures i in e.results || (i in e.destination && i in Buffered(e, e.destination[i]))
    {
      if i < d.taken && i !in d.results {
        AddedFields(d, k, d.destination[i]);
      } else {
        AddedFields(d, k, k);
      }
    }
  }

  lemma SettledFields(d: Desk, k: Key, outcomes: seq<Outcome>, q: Key)
    requires |outcomes| == |Buffered(d, k)|
    ensures var e := Settled(d, k, outcomes);
            && RoutedTo(e, q) == RoutedTo(d, q)
            && (q == k ==> Current(e, q) == Batch([], [], 0) && Passed(e, q) == Passed(d, q) + Buffered(d, q))
            && (q != k ==> Current(e, q) == Current(d, q) && Passed(e, q) == Passed(d, q))
            && e.enqueued == d.enqueued && e.taken == d.taken && e.destination == d.destination
            && forall f :: f in e.results <==> f in d.results || f in Buffered(d, k)
  {
    CompleteAllKeys(d.results, Buffered(d, k), outcomes);
    hide CompleteAll;
  }

  lemma ValidSettled(d: Desk, k: Key, outcomes: seq<Outcome>)
    requires Valid(d) && |outcomes| == |Buffered(d, k)|
    ensures Valid(Settled(d, k, outcomes))
  {
    SettledPlaced(d, k, outcomes);
    TiedSame(d, Settled(d, k, outcomes));
    TopicalSame(d, Settled(d, k, outcomes));
    forall q
      ensures Holds(Settled(d, k, outcomes), q) && InOrder(Settled(d, k, outcomes), q)
    {
      hide *;
      SettledKey(d, k, outcomes, q);
    }
  }

  lemma SettledKey(d: Desk, k: Key, outcomes: seq<Outcome>, q: Key)
    requires Valid(d) && |outcomes| == |Buffered(d, k)|
    ensures Holds(Settled(d, k, outcomes), q) && InOrder(Settled(d, k, outcomes), q)
  {
    SettledFields(d, k, outcomes, q);
    KeyOf(d, q);
    var e := Settled(d, k, outcomes);
    hide Valid, Settled, Current, RoutedTo, Passed, EstimateAll, Increasing, InPlace;
    if q == k {
      NothingHeld(e, k);
      assert Passed(e, q) + [] == Passed(e, q);
    } else {
      forall j | 0 <= j < |Buffered(e, q)|
        ensures InPlace(e, q, Buffered(e, q)[j], Current(e, q).messages[j])
      {
        SettledElsewhere(d, k, outcomes, q, j);
      }
    }
  }

  /** A record buffered for another key is not among the completed ones. */
  lemma SettledElsewhere(d: Desk, k: Key, outcomes: seq<Outcome>, q: Key, j: nat)
    requires Valid(d) && |outcomes| == |Buffered(d, k)| && q != k && j < |Buffered(d, q)|
    ensures j < |Current(d, q).messages|
    ensures InPlace(Settled(d, k, outcomes), q, Buffered(d, q)[j], Current(d, q).messages[j])
  {
    SettledFields(d, k, outcomes, q);
    KeyOf(d, q);
    KeyOf(d, k);
    hide Valid, Settled, Current, RoutedTo, Passed, EstimateAll, Increasing, InOrder;
    assert InPlace(d, q, Buffered(d, q)[j], Current(d, q).messages[j]);
    forall x | 0 <= x < |Buffered(d, k)|
      ensures Buffered(d, k)[x] != Buffered(d, q)[j]
    {
      assert InPlace(d, k, Buffered(d, k)[x], Current(d, k).messages[x]);
    }
  }

  lemma NothingHeld(d: Desk, k: Key)
    requires Current(d, k) == Batch([], [], 0)
    ensures Holds(d, k)
  {}

  lemma SettledPlaced(d: Desk, k: Key, outcomes: seq<Outcome>)
    requires Valid(d) && |outcomes| == |Buffered(d, k)|
    ensures QueueOk(Settled(d, k, outcomes)) && Placed(Settled(d, k, outcomes))
  {
    hide Tied;
    var e, b := Settled(d, k, outcomes), Current(d, k);
    CompleteAllKeys(d.results, b.futures, outcomes);
    assert forall q :: q != k ==> Current(e, q) == Current(d, q);
    KeyOf(d, k);
    hide Current, EstimateAll, Increasing, CompleteAll;
    forall f | f in e.results
      ensures f < e.taken
    {
      if f in b.futures {
        var x :| 0 <= x < |b.futures| && b.futures[x] == f;
        assert InPlace(d, k, b.futures[x], b.messages[x]);
      }
    }
    forall i | 0 <= i < e.taken
      ensures i in e.results || (i in e.destination && i in Buffered(e, e.destination[i]))
    {}
  }

  /** The outcomes of the futures of a delivered batch: record i has the base offset plus i. */
  function OutcomesOf(k: Key, result: Result, count: nat): (outcomes: seq<Outcome>)
    ensures |outcomes| == count
  {
    seq(count, i requires 0 <= i < count => if result.Stored? then Ok(Metadata(k.topic, k.partition, result.offset + i)) else Err)
  }

  /** The batch has reached a limit. */
  predicate Full(b: Batch, limits: Limits) {
    |b.messages| >= limits.batchSize || b.bytes >= limits.batchBytes
  }

  /** The step the worker takes with the record at the head of the queue: without a partition the record
      fails; with one it joins the batch of that partition of its topic, and the batch is delivered if
      and only if that made it full. */
  ghost predicate OneRecord(d: Desk, e: Desk, partition: Option<Int32>, limits: Limits) {
    d.queue != [] &&
    if partition.None? then e == Dismissed(d)
    else
      var k := Key(d.queue[0].topic, partition.value);
      if Full(Current(Added(d, k), k), limits) then
        exists r :: e == Settled(Added(d, k), k, OutcomesOf(k, r, |Buffered(Added(d, k), k)|))
      else e == Added(d, k)
  }

  lemma OneRecordTakes(d: Desk, e: Desk, partition: Option<Int32>, limits: Limits)
    requires OneRecord(d, e, partition, limits)
    ensures e.enqueued == d.enqueued && e.taken == d.taken + 1 && |e.queue| == |d.queue| - 1
  {
    hide Full, Current, OutcomesOf, RoutedTo, Passed, CompleteAll;
  }

  predicate Grew(before: map<nat, Outcome>, after: map<nat, Outcome>) {
    forall f :: f in before ==> f in after && after[f] == before[f]
  }

  /** All futures of the batch are completed, with metadata (`ok`) or with an error. */
  predicate Resolved(results: map<nat, Outcome>, b: Batch, ok: bool) {
    forall i :: 0 <= i < |b.futures| ==> b.futures[i] in results && results[b.futures[i]].Ok? == ok
  }

  lemma ResolvedStays(before: map<nat, Outcome>, after: map<nat, Outcome>, b: Batch)
    requires Grew(before, after) && (Resolved(before, b, true) || Resolved(before, b, false))
    ensures Resolved(before, b, true) <==> Resolved(after, b, true)
    ensures Resolved(before, b, false) <==> Resolved(after, b, false)
  {}

  lemma ResolvedOnce(results: map<nat, Outcome>, b: Batch)
    requires b.futures != []
    ensures !(Resolved(results, b, true) && Resolved(results, b, false))
  {
    var f := b.futures[0];
    assert Resolved(results, b, true) ==> f in results && results[f].Ok?;
    assert Resolved(results, b, false) ==> f in results && !results[f].Ok?;
  }

  /** Completing a batch answers all its futures, and changes no other result. */
  lemma SettledAnswers(d: Desk, k: Key, r: Result)
    requires Valid(d)
    ensures var e := Settled(d, k, OutcomesOf(k, r, |Buffered(d, k)|));
            Grew(d.results, e.results) && Resolved(e.results, Current(d, k), r.Stored?)
  {
    hide Tied;
    FreshFutures(d, k);
    var b, outcomes := Current(d, k), OutcomesOf(k, r, |Buffered(d, k)|);
    hide Valid, Current, CompleteAll, Increasing;
    var e := Settled(d, k, outcomes);
    forall f | f in d.results
      ensures f in e.results && e.results[f] == d.results[f]
    {
      CompleteAllAt(d.results, b.futures, outcomes, f);
    }
    forall i | 0 <= i < |b.futures|
      ensures b.futures[i] in e.results && e.results[b.futures[i]].Ok? == r.Stored?
    {
      CompleteAllAt(d.results, b.futures, outcomes, b.futures[i]);
    }
  }

  lemma SettledRemoves(d: Desk, k: Key, outcomes: seq<Outcome>)
    requires |outcomes| == |Buffered(d, k)|
    ensures Settled(d, k, outcomes).batches == d.batches - {k}
    ensures Settled(d, k, outcomes).(batches := d.batches).(batches := d.batches - {k}) == Settled(d, k, outcomes)
    ensures Settled(d, k, outcomes).enqueued == d.enqueued && Settled(d, k, outcomes).taken == d.taken
  {}

  lemma BatchAligned(d: Desk, k: Key)
    requires Valid(d)
    ensures |Current(d, k).messages| == |Buffered(d, k)|
  {
    hide Tied;
    KeyOf(d, k);
  }

  lemma EmptyIsValid()
    ensures Valid(EMPTY)
  {
    forall k
      ensures Holds(EMPTY, k) && InOrder(EMPTY, k)
    {
      NothingHeld(EMPTY, k);
    }
  }

  lemma FreshFutures(d: Desk, k: Key)
    requires Valid(d)
    ensures Increasing(Buffered(d, k)) && forall i :: 0 <= i < |Buffered(d, k)| ==> Buffered(d, k)[i] !in d.results
  {
    hide Tied;
    KeyOf(d, k);
    hide Valid, Current, Increasing, EstimateAll;
    forall i | 0 <= i < |Buffered(d, k)|
      ensures Buffered(d, k)[i] !in d.results
    {
      assert InPlace(d, k, Buffered(d, k)[i], Current(d, k).messages[i]);
    }
  }
}
