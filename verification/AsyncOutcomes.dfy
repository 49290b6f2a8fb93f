/** How the worker's books hang together with the delivery protocol: which delivery completed a
    future, and what that says about the future's record in the partition. */
module AsyncOutcomes {
  import opened Wrappers
  import opened Wire
  import opened RecordBatches
  import opened ProducerBatches
  import opened Delivery
  import opened DeliveryInvariant
  import opened DeliveryLedger
  import opened DeliveryRuns
  import opened DeliverySafety
  import opened DeliveryOutcomes
  import opened DeliveryHistory
  import opened Producer
  import opened AsyncDesk

  /** The call that delivered a record, and the record's place in its batch. */
  datatype Mark = Mark(call: nat, index: nat)

  type Marks = map<nat, Mark>

  /** A batch that was below both limits before its last record. */
  predicate Bounded(messages: seq<Message>, limits: Limits) {
    messages != [] && |messages| <= limits.batchSize && EstimateAll(messages[..|messages| - 1]) < limits.batchBytes
  }

  function OutcomeAt(k: Key, result: Result, index: nat): Outcome {
    if result.Stored? then Ok(Metadata(k.topic, k.partition, result.offset + index)) else Err
  }

  /** Record `f` was passed on for its key and delivered by call `m.call`, as record `m.index` of a
      batch within the limits, and its future has what the call returned. */
  predicate Delivered(d: Desk, s: State, f: nat, m: Mark, limits: Limits) {
    && f < d.taken && f < |d.enqueued| && f in d.destination && f in d.results
    && f in Passed(d, d.destination[f])
    && m.call < |s.calls| && DeliveredBy(s.calls[m.call], d.destination[f], d.enqueued[f].message, m.index, d.results[f], limits)
  }

  predicate DeliveredBy(call: Call, k: Key, message: Message, index: nat, outcome: Outcome, limits: Limits) {
    && call.job.Deliver? && call.job.key == k && Bounded(call.job.messages, limits)
    && index < |call.job.messages| && call.job.messages[index] == message
    && call.phase.Done? && outcome == OutcomeAt(k, call.phase.result, index)
  }

  /** `m` comes before `n`: earlier in the same batch, or in an earlier one. */
  ghost predicate Precedes(s: State, k: Key, m: Mark, n: Mark) {
    || (m.call == n.call && m.index < n.index)
    || (m.call < n.call
        && (StoredCall(s.calls, m.call, k) && StoredCall(s.calls, n.call, k) ==> AckedBefore(s, k, m.call, n.call)))
  }

  ghost predicate MarksAreTrue(d: Desk, s: State, marks: Marks, limits: Limits) {
    forall f :: f in marks ==> Delivered(d, s, f, marks[f], limits)
  }

  /** Everything that was passed on for a key was routed there and has its mark. */
  ghost predicate PassedIsMarked(d: Desk, marks: Marks) {
    forall k, f :: f in Passed(d, k) ==> f in marks && f in d.destination && d.destination[f] == k
  }

  ghost predicate OkIsMarked(d: Desk, marks: Marks) {
    forall f :: f in d.results && d.results[f].Ok? ==> f in marks
  }

  /** The records of a key were delivered in the order in which they were dequeued. */
  ghost predicate InDequeueOrder(d: Desk, s: State, marks: Marks) {
    forall f, g :: f in marks && g in marks && f < g && f in d.destination && g in d.destination
                   && d.destination[f] == d.destination[g] ==>
                     Precedes(s, d.destination[f], marks[f], marks[g])
  }

  ghost predicate Named(d: Desk, s: State, marks: Marks, limits: Limits) {
    MarksAreTrue(d, s, marks, limits) && PassedIsMarked(d, marks) && OkIsMarked(d, marks) && InDequeueOrder(d, s, marks)
  }

  // ------------------------------------------------------------ while the client goes on

  lemma DeliveredStays(d: Desk, s: State, t: State, f: nat, m: Mark, limits: Limits)
    requires Delivered(d, s, f, m, limits) && Later(s, t)
    ensures Delivered(d, t, f, m, limits)
  {
    assert LaterCall(s.calls[m.call], t.calls[m.call]);
  }

  lemma AckedBeforeStays(s: State, t: State, k: Key, c: nat, e: nat)
    requires AckedBefore(s, k, c, e) && Later(s, t)
    ensures AckedBefore(t, k, c, e)
  {
    hide AckedCalls, Log;
    var i, j :| 0 <= i < j < |AckedCalls(s, k)| && AckedCalls(s, k)[i] == c && AckedCalls(s, k)[j] == e;
    assert AckedCalls(s, k) <= AckedCalls(t, k);
    assert AckedCalls(t, k)[i] == c && AckedCalls(t, k)[j] == e;
  }

  lemma PrecedesStays(s: State, t: State, k: Key, m: Mark, n: Mark)
    requires Precedes(s, k, m, n) && Later(s, t)
    requires m.call < |s.calls| && s.calls[m.call].phase.Done? && n.call < |s.calls| && s.calls[n.call].phase.Done?
    ensures Precedes(t, k, m, n)
  {
    hide AckedBefore, Log, AckedCalls;
    assert LaterCall(s.calls[m.call], t.calls[m.call]) && LaterCall(s.calls[n.call], t.calls[n.call]);
    if AckedBefore(s, k, m.call, n.call) {
      AckedBeforeStays(s, t, k, m.call, n.call);
    }
  }

  lemma NamedLater(d: Desk, s: State, t: State, marks: Marks, limits: Limits)
    requires Named(d, s, marks, limits) && Later(s, t)
    ensures Named(d, t, marks, limits)
  {
    hide PassedIsMarked, OkIsMarked, Delivered, Precedes, Later;
    forall f | f in marks
      ensures Delivered(d, t, f, marks[f], limits)
    {
      DeliveredStays(d, s, t, f, marks[f], limits);
    }
    forall f, g | f in marks && g in marks && f < g && f in d.destination && g in d.destination
                  && d.destination[f] == d.destination[g]
      ensures Precedes(t, d.destination[f], marks[f], marks[g])
    {
      DeliveredIsDone(d, s, f, marks[f], limits);
      DeliveredIsDone(d, s, g, marks[g], limits);
      PrecedesStays(s, t, d.destination[f], marks[f], marks[g]);
    }
  }

  lemma DeliveredIsDone(d: Desk, s: State, f: nat, m: Mark, limits: Limits)
    requires Delivered(d, s, f, m, limits)
    ensures f in d.destination && f in d.results && m.call < |s.calls| && s.calls[m.call].phase.Done?
  {}

  // ------------------------------------------------------------- while the books grow

  /** Books that keep what was delivered and complete nothing with metadata. */
  ghost predicate Quietly(d: Desk, e: Desk) {
    && d.taken <= e.taken && d.enqueued <= e.enqueued
    && (forall f :: f in d.destination && f < d.taken ==> f in e.destination && e.destination[f] == d.destination[f])
    && (forall f :: f in d.results ==> f in e.results && e.results[f] == d.results[f])
    && (forall f :: f in e.results && e.results[f].Ok? ==> f in d.results && d.results[f].Ok?)
    && forall k :: Passed(e, k) == Passed(d, k)
  }

  lemma NamedQuietly(d: Desk, e: Desk, s: State, marks: Marks, limits: Limits)
    requires Named(d, s, marks, limits) && Quietly(d, e)
    ensures Named(e, s, marks, limits)
  {
    MarksQuietly(d, e, s, marks, limits);
    OrderQuietly(d, e, s, marks, limits);
    PassedQuietly(d, e, s, marks, limits);
    hide MarksAreTrue, InDequeueOrder, Quietly, PassedIsMarked, OkIsMarked;
  }

  lemma MarksQuietly(d: Desk, e: Desk, s: State, marks: Marks, limits: Limits)
    requires MarksAreTrue(d, s, marks, limits) && Quietly(d, e)
    ensures MarksAreTrue(e, s, marks, limits)
  {
    hide Passed, DeliveredBy;
    forall f | f in marks
      ensures Delivered(e, s, f, marks[f], limits)
    {
      assert Delivered(d, s, f, marks[f], limits);
    }
  }

  lemma OrderQuietly(d: Desk, e: Desk, s: State, marks: Marks, limits: Limits)
    requires MarksAreTrue(d, s, marks, limits) && InDequeueOrder(d, s, marks) && Quietly(d, e)
    ensures InDequeueOrder(e, s, marks)
  {
    hide Passed, DeliveredBy, Precedes;
    forall f | f in marks
      ensures f in d.destination && f in e.destination && e.destination[f] == d.destination[f]
    {
      assert Delivered(d, s, f, marks[f], limits);
    }
  }

  lemma PassedQuietly(d: Desk, e: Desk, s: State, marks: Marks, limits: Limits)
    requires MarksAreTrue(d, s, marks, limits) && PassedIsMarked(d, marks) && OkIsMarked(d, marks) && Quietly(d, e)
    ensures PassedIsMarked(e, marks) && OkIsMarked(e, marks)
  {
    hide Passed, DeliveredBy, PassedIsMarked;
    forall k, f | f in Passed(e, k)
      ensures f in marks && f in e.destination && e.destination[f] == k
    {
      PassedStays(d, e, s, marks, limits, k, f);
    }
    PassedIs(e, marks);
  }

  lemma PassedStays(d: Desk, e: Desk, s: State, marks: Marks, limits: Limits, k: Key, f: nat)
    requires MarksAreTrue(d, s, marks, limits) && PassedIsMarked(d, marks) && Quietly(d, e)
    requires f in Passed(e, k)
    ensures f in marks && f in e.destination && e.destination[f] == k
  {
    hide Passed, DeliveredBy;
    assert f in Passed(d, k) && Delivered(d, s, f, marks[f], limits);
  }

  lemma QueuedQuietly(d: Desk, topic: Bytes, message: Message)
    ensures Quietly(d, Queued(d, topic, message))
  {
    var e := Queued(d, topic, message);
    assert forall k :: Passed(e, k) == Passed(d, k);
  }

  lemma DismissedQuietly(d: Desk)
    requires Valid(d) && d.queue != []
    ensures Quietly(d, Dismissed(d))
  {
    HeadIs(d);
    hide Valid;
    var e := Dismissed(d);
    assert forall k :: Passed(e, k) == Passed(d, k);
  }

  lemma AddedQuietly(d: Desk, k: Key)
    requires Valid(d) && d.queue != []
    ensures Quietly(d, Added(d, k))
  {
    HeadIs(d);
    hide Valid, Current, RoutedTo;
    var e := Added(d, k);
    assert forall q :: Passed(e, q) == Passed(d, q);
  }

  // ---------------------------------------------------------------- a delivered batch

  /** The marks of the records of a delivered batch. */
  function Marked(marks: Marks, futures: seq<nat>, call: nat): Marks {
    if futures == [] then marks
    else
      var n := |futures| - 1;
      Marked(marks, futures[..n], call)[futures[n] := Mark(call, n)]
  }

  lemma {:induction false} MarkedAt(marks: Marks, futures: seq<nat>, call: nat, f: nat)
    requires Increasing(futures)
    ensures f in Marked(marks, futures, call) <==> f in marks || f in futures
    ensures f !in futures && f in marks ==> Marked(marks, futures, call)[f] == marks[f]
    ensures forall i :: 0 <= i < |futures| && futures[i] == f ==> Marked(marks, futures, call)[f] == Mark(call, i)
  {
    if futures != [] {
      MarkedAt(marks, futures[..|futures| - 1], call, f);
      assert futures == futures[..|futures| - 1] + [futures[|futures| - 1]];
    }
  }

  /** A call that begins after another one was acknowledged is acknowledged after it. */
  lemma LaterIsAckedLater(cfg: Config, s: State, t: State, k: Key, c: nat, e: nat)
    requires Reachable(cfg, s) && Reachable(cfg, t) && Later(s, t) && c < |s.calls| <= e
    requires s.calls[c].phase.Done? && StoredCall(t.calls, c, k) && StoredCall(t.calls, e, k)
    ensures AckedBefore(t, k, c, e)
  {
    assert LaterCall(s.calls[c], t.calls[c]);
    SequencesAreContiguous(cfg, s, k, 0);
    SequencesAreContiguous(cfg, t, k, 0);
    assert StoredCall(s.calls, c, k);
    var i :| 0 <= i < |AckedCalls(s, k)| && AckedCalls(s, k)[i] == c;
    var j :| 0 <= j < |AckedCalls(t, k)| && AckedCalls(t, k)[j] == e;
    assert AckedCalls(s, k) <= AckedCalls(t, k);
    hide AckedCalls, Log, Reachable, Total, Later;
    assert AckedCalls(t, k)[i] == c;
    if j < |AckedCalls(s, k)| {
      AckedIsOld(cfg, s, k, j);
    }
  }

  lemma AckedIsOld(cfg: Config, s: State, k: Key, j: nat)
    requires Reachable(cfg, s) && j < |AckedCalls(s, k)|
    ensures AckedCalls(s, k)[j] < |s.calls|
  {
    SequencesAreContiguous(cfg, s, k, j);
    hide Reachable, AckedCalls, Total;
  }

  /** What a delivery of the batch of `k` from books `d` means: call `e` was new to the client in state
      `s`, and has returned with `result` in state `t`. */
  ghost predicate Delivers(cfg: Config, d: Desk, s: State, t: State, k: Key, e: nat, result: Result, limits: Limits) {
    && Reachable(cfg, s) && Reachable(cfg, t) && Later(s, t)
    && |s.calls| <= e < |t.calls| && t.calls[e].job == Deliver(k, Current(d, k).messages)
    && t.calls[e].phase == Done(result) && Bounded(Current(d, k).messages, limits)
  }

  /** A record of the batch that is delivered. */
  lemma BatchRecord(d: Desk, k: Key, i: nat)
    requires Valid(d) && i < |Buffered(d, k)|
    ensures var f := Buffered(d, k)[i];
            && |Current(d, k).messages| == |Buffered(d, k)| && Increasing(Buffered(d, k))
            && f < d.taken && f < |d.enqueued| && f !in d.results && f in d.destination && d.destination[f] == k
            && Current(d, k).messages[i] == d.enqueued[f].message
  {
    KeyOf(d, k);
    hide Valid, Current, Increasing, EstimateAll;
    assert InPlace(d, k, Buffered(d, k)[i], Current(d, k).messages[i]);
  }

  lemma NewDelivered(cfg: Config, d: Desk, s: State, t: State, k: Key, c: nat, result: Result, limits: Limits, i: nat)
    requires Valid(d) && Delivers(cfg, d, s, t, k, c, result, limits) && i < |Buffered(d, k)|
    ensures var outcomes := OutcomesOf(k, result, |Buffered(d, k)|);
            Delivered(Settled(d, k, outcomes), t, Buffered(d, k)[i], Mark(c, i), limits)
  {
    BatchRecord(d, k, i);
    var outcomes, f := OutcomesOf(k, result, |Buffered(d, k)|), Buffered(d, k)[i];
    CompleteAllAt(d.results, Buffered(d, k), outcomes, f);
    SettledFields(d, k, outcomes, k);
    SettledResult(d, k, outcomes, f);
    hide Valid, Settled, Current, Passed, RoutedTo, Reachable, Later, Bounded, Increasing;
  }

  lemma SettledResult(d: Desk, k: Key, outcomes: seq<Outcome>, f: nat)
    requires |outcomes| == |Buffered(d, k)|
    ensures Settled(d, k, outcomes).results == CompleteAll(d.results, Buffered(d, k), outcomes)
  {}

  lemma OldDelivered(d: Desk, t: State, k: Key, outcomes: seq<Outcome>, f: nat, m: Mark, limits: Limits)
    requires Valid(d) && |outcomes| == |Buffered(d, k)| && Delivered(d, t, f, m, limits)
    ensures f !in Buffered(d, k) && Delivered(Settled(d, k, outcomes), t, f, m, limits)
  {
    FreshFutures(d, k);
    CompleteAllAt(d.results, Buffered(d, k), outcomes, f);
    SettledFields(d, k, outcomes, d.destination[f]);
    SettledResult(d, k, outcomes, f);
    hide Valid, Settled, Current, Passed, RoutedTo, Increasing, DeliveredBy, CompleteAll;
  }

  /** A record passed on earlier for the key was dequeued earlier. */
  lemma PassedIsEarlier(d: Desk, k: Key, f: nat, i: nat)
    requires Valid(d) && f in Passed(d, k) && i < |Buffered(d, k)|
    ensures f < Buffered(d, k)[i]
  {
    KeyOf(d, k);
    hide Valid, AsyncDesk.Holds, Current, Passed;
    var x :| 0 <= x < |Passed(d, k)| && Passed(d, k)[x] == f;
    assert RoutedTo(d, k)[x] == f && RoutedTo(d, k)[|Passed(d, k)| + i] == Buffered(d, k)[i];
  }

  /** Delivering a batch keeps the marks true, and gives each of its records one. */
  lemma NamedSettled(cfg: Config, d: Desk, s: State, t: State, marks: Marks, k: Key, c: nat, result: Result, limits: Limits)
    requires Valid(d) && Named(d, s, marks, limits) && Delivers(cfg, d, s, t, k, c, result, limits)
    ensures Named(Settled(d, k, OutcomesOf(k, result, |Buffered(d, k)|)), t, Marked(marks, Buffered(d, k), c), limits)
  {
    var e, marks' := Settled(d, k, OutcomesOf(k, result, |Buffered(d, k)|)), Marked(marks, Buffered(d, k), c);
    LaterOf(cfg, d, s, t, k, c, result, limits);
    hide *;
    NamedLater(d, s, t, marks, limits);
    NamedParts(d, t, marks, limits);
    SettledMarks(cfg, d, s, t, marks, k, c, result, limits);
    SettledPassed(d, marks, k, c, OutcomesOf(k, result, |Buffered(d, k)|));
    SettledOks(d, marks, k, c, OutcomesOf(k, result, |Buffered(d, k)|));
    SettledPrecede(cfg, d, s, t, marks, k, c, result, limits);
    NamedIs(e, t, marks', limits);
  }

  lemma LaterOf(cfg: Config, d: Desk, s: State, t: State, k: Key, c: nat, result: Result, limits: Limits)
    requires Delivers(cfg, d, s, t, k, c, result, limits)
    ensures Later(s, t)
  {}

  lemma NamedParts(d: Desk, s: State, marks: Marks, limits: Limits)
    requires Named(d, s, marks, limits)
    ensures MarksAreTrue(d, s, marks, limits) && PassedIsMarked(d, marks) && OkIsMarked(d, marks)
    ensures InDequeueOrder(d, s, marks)
  {}

  lemma NamedIs(d: Desk, t: State, marks: Marks, limits: Limits)
    requires MarksAreTrue(d, t, marks, limits) && PassedIsMarked(d, marks) && OkIsMarked(d, marks)
    requires InDequeueOrder(d, t, marks)
    ensures Named(d, t, marks, limits)
  {}

  lemma SettledMarks(cfg: Config, d: Desk, s: State, t: State, marks: Marks, k: Key, c: nat, result: Result, limits: Limits)
    requires Valid(d) && MarksAreTrue(d, t, marks, limits) && Delivers(cfg, d, s, t, k, c, result, limits)
    ensures var e, marks' := Settled(d, k, OutcomesOf(k, result, |Buffered(d, k)|)), Marked(marks, Buffered(d, k), c);
            MarksAreTrue(e, t, marks', limits)
  {
    FreshFutures(d, k);
    var outcomes := OutcomesOf(k, result, |Buffered(d, k)|);
    var e, marks' := Settled(d, k, outcomes), Marked(marks, Buffered(d, k), c);
    hide Valid, Delivers, Settled, Delivered, Precedes, Buffered, Marked, Increasing, Passed;
    forall f | f in marks'
      ensures Delivered(e, t, f, marks'[f], limits)
    {
      MarkedAt(marks, Buffered(d, k), c, f);
      if f in Buffered(d, k) {
        var i :| 0 <= i < |Buffered(d, k)| && Buffered(d, k)[i] == f;
        NewDelivered(cfg, d, s, t, k, c, result, limits, i);
      } else {
        OldDelivered(d, t, k, outcomes, f, marks[f], limits);
      }
    }
  }

  lemma SettledPassed(d: Desk, marks: Marks, k: Key, c: nat, outcomes: seq<Outcome>)
    requires Valid(d) && PassedIsMarked(d, marks) && |outcomes| == |Buffered(d, k)|
    ensures var e, marks' := Settled(d, k, outcomes), Marked(marks, Buffered(d, k), c);
            PassedIsMarked(e, marks')
  {
    var e, marks' := Settled(d, k, outcomes), Marked(marks, Buffered(d, k), c);
    hide *;
    forall q, f | f in Passed(e, q)
      ensures f in marks' && f in e.destination && e.destination[f] == q
    {
      PassedAt(d, marks, k, c, outcomes, q, f);
    }
    PassedIs(e, marks');
  }

  lemma PassedIs(d: Desk, marks: Marks)
    requires forall k, f :: f in Passed(d, k) ==> f in marks && f in d.destination && d.destination[f] == k
    ensures PassedIsMarked(d, marks)
  {}

  lemma PassedAt(d: Desk, marks: Marks, k: Key, c: nat, outcomes: seq<Outcome>, q: Key, f: nat)
    requires Valid(d) && PassedIsMarked(d, marks) && |outcomes| == |Buffered(d, k)|
    requires f in Passed(Settled(d, k, outcomes), q)
    ensures f in Marked(marks, Buffered(d, k), c)
    ensures var e := Settled(d, k, outcomes); f in e.destination && e.destination[f] == q
  {
    FreshFutures(d, k);
    MarkedAt(marks, Buffered(d, k), c, f);
    hide *;
    PassedBefore(d, k, outcomes, q, f);
    if f in Passed(d, q) {
      PassedMarks(d, marks, q, f);
    }
  }

  /** What is passed on once the batch is settled was passed on before or is in the batch. */
  lemma PassedBefore(d: Desk, k: Key, outcomes: seq<Outcome>, q: Key, f: nat)
    requires Valid(d) && |outcomes| == |Buffered(d, k)| && f in Passed(Settled(d, k, outcomes), q)
    ensures Settled(d, k, outcomes).destination == d.destination
    ensures f in Passed(d, q) || (f in Buffered(d, k) && f in d.destination && d.destination[f] == q)
  {
    SettledFields(d, k, outcomes, q);
    hide Valid, Settled, Current, Passed;
    if f !in Passed(d, q) {
      var i :| 0 <= i < |Buffered(d, k)| && Buffered(d, k)[i] == f;
      BatchRecord(d, k, i);
    }
  }

  lemma PassedMarks(d: Desk, marks: Marks, k: Key, f: nat)
    requires PassedIsMarked(d, marks) && f in Passed(d, k)
    ensures f in marks && f in d.destination && d.destination[f] == k
  {
    hide Passed;
  }

  lemma SettledOks(d: Desk, marks: Marks, k: Key, c: nat, outcomes: seq<Outcome>)
    requires Valid(d) && OkIsMarked(d, marks) && |outcomes| == |Buffered(d, k)|
    ensures var e, marks' := Settled(d, k, outcomes), Marked(marks, Buffered(d, k), c);
            OkIsMarked(e, marks')
  {
    FreshFutures(d, k);
    var e, marks' := Settled(d, k, outcomes), Marked(marks, Buffered(d, k), c);
    hide Valid, Settled, Current, Marked, Increasing, Passed;
    forall f | f in e.results && e.results[f].Ok?
      ensures f in marks'
    {
      MarkedAt(marks, Buffered(d, k), c, f);
      CompleteAllKeys(d.results, Buffered(d, k), outcomes);
      CompleteAllAt(d.results, Buffered(d, k), outcomes, f);
      SettledResult(d, k, outcomes, f);
    }
  }

  lemma SettledPrecede(cfg: Config, d: Desk, s: State, t: State, marks: Marks, k: Key, c: nat, result: Result, limits: Limits)
    requires Valid(d) && Named(d, s, marks, limits) && Named(d, t, marks, limits)
    requires Delivers(cfg, d, s, t, k, c, result, limits)
    ensures InDequeueOrder(Settled(d, k, OutcomesOf(k, result, |Buffered(d, k)|)), t, Marked(marks, Buffered(d, k), c))
  {
    FreshFutures(d, k);
    var outcomes, marks' := OutcomesOf(k, result, |Buffered(d, k)|), Marked(marks, Buffered(d, k), c);
    assert Settled(d, k, outcomes).destination == d.destination;
    hide Valid, Delivers, Precedes, Buffered, Marked, Increasing, Passed, Named, Settled;
    forall f, g | f in marks' && g in marks' && f < g && f in d.destination && g in d.destination
                  && d.destination[f] == d.destination[g]
      ensures Precedes(t, d.destination[f], marks'[f], marks'[g])
    {
      PairPrecedes(cfg, d, s, t, marks, k, c, result, limits, f, g);
    }
  }

  lemma PairPrecedes(cfg: Config, d: Desk, s: State, t: State, marks: Marks, k: Key, c: nat, result: Result,
                     limits: Limits, f: nat, g: nat)
    requires Valid(d) && Named(d, s, marks, limits) && Named(d, t, marks, limits)
    requires Delivers(cfg, d, s, t, k, c, result, limits)
    requires f < g && f in d.destination && g in d.destination && d.destination[f] == d.destination[g]
    requires f in Marked(marks, Buffered(d, k), c) && g in Marked(marks, Buffered(d, k), c)
    ensures var marks' := Marked(marks, Buffered(d, k), c);
            Precedes(t, d.destination[f], marks'[f], marks'[g])
  {
    FreshFutures(d, k);
    MarkedAt(marks, Buffered(d, k), c, f);
    MarkedAt(marks, Buffered(d, k), c, g);
    hide Valid, Marked, Passed, Current, Bounded;
    if f in Buffered(d, k) {
      var i :| 0 <= i < |Buffered(d, k)| && Buffered(d, k)[i] == f;
      BatchRecord(d, k, i);
      if g in Buffered(d, k) {
        var j :| 0 <= j < |Buffered(d, k)| && Buffered(d, k)[j] == g;
        assert i < j;
      } else {
        assert Delivered(d, s, g, marks[g], limits);
        PassedIsEarlier(d, k, g, i);
      }
    } else if g in Buffered(d, k) {
      var j :| 0 <= j < |Buffered(d, k)| && Buffered(d, k)[j] == g;
      BatchRecord(d, k, j);
      assert Delivered(d, s, f, marks[f], limits);
      if StoredCall(t.calls, marks[f].call, k) && StoredCall(t.calls, c, k) {
        LaterIsAckedLater(cfg, s, t, k, marks[f].call, c);
      }
    }
  }
}
