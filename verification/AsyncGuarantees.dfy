/** What a caller of the asynchronous producer may conclude from a completed future about the
    partition: where its record stands, in which order, and in how large a batch it was sent. */
module AsyncGuarantees {
  import opened Wrappers
  import opened Wire
  import opened RecordBatches
  import opened ProducerBatches
  import opened Delivery
  import opened DeliveryInvariant
  import opened DeliveryLedger
  import opened DeliveryRuns
  import opened DeliverySafety
  import opened DeliveryOutcomes
  import opened Producer
  import opened AsyncDesk
  import opened AsyncOutcomes

  /** The future of record `f` was completed with metadata: it belongs to key `k`, and call `c`
      delivered it under a producer id. */
  predicate Promised(d: Desk, s: State, marks: Marks, f: nat, k: Key, c: nat) {
    && f in d.results && d.results[f].Ok? && f < |d.enqueued| && f in d.destination && d.destination[f] == k
    && f in marks && marks[f].call == c && StoredWithId(s, c, k)
  }

  /** The record stands in this batch of the log, at this offset: with its own key, value and headers,
      and the distance from the start of the batch. */
  predicate StandsAt(x: Entry, offset: int, message: Message) {
    x.offset <= offset < x.offset + |x.records|
    && var r := x.records[offset - x.offset];
       && r.key == message.key && r.value == message.value && r.headers == message.headers
       && r.offsetDelta == offset - x.offset
  }

  /** Batch `j` belongs to call `c`, as no other does, and the record stands in it at this offset, as
      it does in no other. */
  ghost predicate StandsOnlyIn(log: seq<Entry>, j: nat, c: nat, offset: int, message: Message) {
    && j < |log| && log[j].call == c && StandsAt(log[j], offset, message)
    && forall i :: 0 <= i < |log| && (log[i].call == c || StandsAt(log[i], offset, message)) ==> i == j
  }

  /** No batch of the partition belongs to call `c`: the one with its identity, batch `j`, belongs to a
      call that failed after transmitting under the same base sequence. */
  ghost predicate Supplanted(s: State, k: Key, c: nat, j: nat) {
    && StoredWithId(s, c, k) && j < |Log(s, k)|
    && (forall i :: 0 <= i < |Log(s, k)| ==> Log(s, k)[i].call != c)
    && Rival(s, Log(s, k)[j].call, k, s.calls[c].identity.value.baseSequence)
  }

  /** What a completed future says: the key is a partition of the topic that the record was queued for,
      the offset is that of the record in its batch, and the batch was within the worker's limits. */
  lemma PromiseIsExact(d: Desk, s: State, marks: Marks, limits: Limits, f: nat, k: Key, c: nat)
    requires Valid(d) && Named(d, s, marks, limits) && Promised(d, s, marks, f, k, c)
    ensures f in marks && f in d.results && d.results[f].Ok? && f < |d.enqueued| && StoredWithId(s, c, k)
    ensures marks[f].index < |s.calls[c].job.messages| && Bounded(s.calls[c].job.messages, limits)
    ensures s.calls[c].job.messages[marks[f].index] == d.enqueued[f].message
    ensures d.results[f].metadata == Metadata(k.topic, k.partition, s.calls[c].phase.result.offset + marks[f].index)
    ensures k.topic == d.enqueued[f].topic
  {
    TopicalAt(d, f);
    hide Bounded, Valid;
    assert Delivered(d, s, f, marks[f], limits);
  }

  /** A future completed with metadata has its record in a partition of the topic it was queued for, at
      the offset and in the partition it was told, in one batch and in no other, or it has been
      supplanted: its call's identity belongs to the batch of a call that failed after transmitting
      under the same base sequence. */
  lemma FutureIsKept(cfg: Config, d: Desk, s: State, marks: Marks, limits: Limits, f: nat, k: Key, c: nat) returns (j: nat)
    requires Reachable(cfg, s) && Valid(d) && Named(d, s, marks, limits) && Promised(d, s, marks, f, k, c)
    requires Total(s.calls, AckedCalls(s, k)) <= MAX_INT32
    ensures k.topic == d.enqueued[f].topic == d.results[f].metadata.topic && k.partition == d.results[f].metadata.partition
    ensures StandsOnlyIn(Log(s, k), j, c, d.results[f].metadata.offset, d.enqueued[f].message)
            <==> !Supplanted(s, k, c, j)
  {
    hide *;
    PromiseIsExact(d, s, marks, limits, f, k, c);
    j := CallIsKept(cfg, s, k, c, marks[f].index);
  }

  lemma CallIsKept(cfg: Config, s: State, k: Key, c: nat, index: nat) returns (j: nat)
    requires Reachable(cfg, s) && StoredWithId(s, c, k) && Total(s.calls, AckedCalls(s, k)) <= MAX_INT32
    requires index < |s.calls[c].job.messages|
    ensures StandsOnlyIn(Log(s, k), j, c, s.calls[c].phase.result.offset + index, s.calls[c].job.messages[index])
            <==> !Supplanted(s, k, c, j)
  {
    j := StoredOrRivalled(cfg, s, c, k);
    LogIsApart(cfg, s, k, j);
    JobIsSmall(cfg, s, c);
    hide Reachable, Log, Total, Rival, EntryOk, HasIdentity, Kept, AckedCalls, StandsAt;
    if Log(s, k)[j].call == c {
      OwnBatch(s.calls, k, Log(s, k), c, j, index);
    }
  }

  predicate Apart(log: seq<Entry>) {
    forall i, j :: 0 <= i < j < |log| ==> log[i].offset + |log[i].records| <= log[j].offset
  }

  lemma LogIsApart(cfg: Config, s: State, k: Key, j: nat)
    requires Reachable(cfg, s) && j < |Log(s, k)|
    ensures Apart(Log(s, k)) && EntryOk(s.calls, k, Log(s, k)[j])
  {
    ReachableHolds(cfg, s);
    assert LogOk(s, k);
    hide Inv, Log, Reachable, EntryOk;
    forall i, j | 0 <= i < j < |Log(s, k)|
      ensures Log(s, k)[i].offset + |Log(s, k)[i].records| <= Log(s, k)[j].offset
    {
      OffsetsDoNotOverlap(cfg, s, k, i, j);
    }
  }

  lemma JobIsSmall(cfg: Config, s: State, c: nat)
    requires Reachable(cfg, s) && c < |s.calls| && s.calls[c].job.Deliver?
    ensures |s.calls[c].job.messages| <= MAX_INT32
  {
    ReachableHolds(cfg, s);
    InvCalls(cfg, s);
    hide Inv, Reachable;
    assert Shape(s.calls[c]);
    RecordsSizeBounds(ProtocolRecords(s.calls[c].job.messages));
  }

  lemma OwnBatch(calls: seq<Call>, k: Key, log: seq<Entry>, c: nat, j: nat, index: nat)
    requires Apart(log) && StoredCall(calls, c, k) && index < |calls[c].job.messages| <= MAX_INT32
    requires j < |log| && log[j].call == c && log[j].offset == calls[c].phase.result.offset && EntryOk(calls, k, log[j])
    requires forall i :: 0 <= i < |log| && log[i].call == c ==> i == j
    ensures StandsOnlyIn(log, j, c, calls[c].phase.result.offset + index, calls[c].job.messages[index])
  {
    RecordIsMessage(calls[c].job.messages, index);
    hide ProtocolRecords;
  }

  /** The futures of a key get their offsets in the order in which the records were dequeued; only a
      record whose call was supplanted may have been given an offset that is not before those of the
      later records. */
  lemma FuturesInOrder(cfg: Config, d: Desk, s: State, marks: Marks, limits: Limits, f: nat, g: nat, k: Key, c: nat, e: nat)
    requires Reachable(cfg, s) && Valid(d) && Named(d, s, marks, limits) && Total(s.calls, AckedCalls(s, k)) <= MAX_INT32
    requires f < g && Promised(d, s, marks, f, k, c) && Promised(d, s, marks, g, k, e)
    ensures d.results[f].metadata.offset < d.results[g].metadata.offset || exists p :: Supplanted(s, k, c, p)
  {
    PromisesPrecede(d, s, marks, limits, f, g, k, c, e);
    hide *;
    PromiseIsExact(d, s, marks, limits, f, k, c);
    PromiseIsExact(d, s, marks, limits, g, k, e);
    if c != e {
      CallsInOrder(cfg, s, k, c, e, marks[f].index);
    }
  }

  lemma PromisesPrecede(d: Desk, s: State, marks: Marks, limits: Limits, f: nat, g: nat, k: Key, c: nat, e: nat)
    requires Named(d, s, marks, limits) && f < g && Promised(d, s, marks, f, k, c) && Promised(d, s, marks, g, k, e)
    ensures (c == e && marks[f].index < marks[g].index) || (c != e && AckedBefore(s, k, c, e))
  {
    hide MarksAreTrue, PassedIsMarked, OkIsMarked, AckedBefore;
    assert Precedes(s, k, marks[f], marks[g]);
  }

  lemma CallsInOrder(cfg: Config, s: State, k: Key, c: nat, e: nat, index: nat)
    requires Reachable(cfg, s) && Total(s.calls, AckedCalls(s, k)) <= MAX_INT32
    requires StoredWithId(s, c, k) && StoredWithId(s, e, k) && AckedBefore(s, k, c, e)
    requires index < |s.calls[c].job.messages|
    ensures s.calls[c].phase.result.offset + index < s.calls[e].phase.result.offset || exists p :: Supplanted(s, k, c, p)
  {
    var p := StoredOrRivalled(cfg, s, c, k);
    var q := StoredOrRivalled(cfg, s, e, k);
    StoredInOrder(cfg, s, k, c, e, p, q);
    LogIsApart(cfg, s, k, p);
    hide Reachable, Log, Total, Rival, Kept, AckedCalls, HasIdentity, AckedBefore, ProtocolRecords;
    if Log(s, k)[p].call != c {
      assert Supplanted(s, k, c, p);
    }
  }

  /** Whatever the worker has sent, its encoding exceeded the byte limit by less than the estimate of
      its last record and the fixed header, and it had no more records than the limit says. */
  lemma SentIsBounded(d: Desk, s: State, marks: Marks, limits: Limits, f: nat, id: Identity, leaderEpoch: Int32, now: Int64)
    requires Named(d, s, marks, limits) && f in marks
    ensures marks[f].call < |s.calls| && s.calls[marks[f].call].job.Deliver?
    ensures var messages := s.calls[marks[f].call].job.messages;
            && 0 < |messages| <= limits.batchSize
            && |BatchBytes(ProducerBatch(messages, id, leaderEpoch, now))|
               < limits.batchBytes + Estimate(messages[|messages| - 1]) + 57
  {
    assert Delivered(d, s, f, marks[f], limits);
    hide Named, BatchBytes, ProducerBatch, Estimate, EstimateAll;
    OvershootIsBounded(s.calls[marks[f].call].job.messages, limits.batchBytes, id, leaderEpoch, now);
  }
}
