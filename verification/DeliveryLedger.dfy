/** What the network, the broker and the acknowledgements hold in every reachable state of the
    delivery protocol, and how the partition log follows the acknowledged calls. */
module DeliveryLedger {
  import opened Wrappers
  import opened Wire
  import opened RecordBatches
  import opened RecordBatchSets
  import opened ProducerBatches
  import opened Delivery
  import opened DeliveryInvariant

  // ---------------------------------------------------------------- growing calls

  predicate StoredResult(call: Call) {
    (call.phase.Leave? || call.phase.Done?) && call.phase.result.Stored?
  }

  predicate FailedResult(call: Call) {
    (call.phase.Leave? || call.phase.Done?) && call.phase.result.Failed?
  }

  predicate Grown(before: Call, after: Call) {
    && before.job == after.job
    && (before.identity.Some? ==> after.identity == before.identity)
    && before.frames <= after.frames
    && (StoredResult(before) ==> StoredResult(after))
    && (FailedResult(before) ==> FailedResult(after))
  }

  ghost predicate Extends(before: seq<Call>, after: seq<Call>) {
    |before| <= |after| && forall c :: 0 <= c < |before| ==> Grown(before[c], after[c])
  }

  lemma StepExtends(s: State, c: nat, e: Effect)
    requires c < |s.calls| && Lawful(s, c, s.calls[c], e)
    ensures Extends(s.calls, s.calls[c := e.call])
  {
    assert Grown(s.calls[c], e.call);
  }

  // ---------------------------------------------------------------- what was sent

  /** `c` delivers to `k`, has its identity and has transmitted. */
  predicate Sender(calls: seq<Call>, c: nat, k: Key) {
    c < |calls| && calls[c].job.Deliver? && calls[c].job.key == k && calls[c].identity.Some? && calls[c].frames > 0
  }

  /** A request carries its call's records under its call's one identity, whatever the attempt. */
  predicate FrameOk(calls: seq<Call>, f: Frame) {
    Sender(calls, f.call, f.key)
    && Carries(f.bytes, calls[f.call].job.messages, calls[f.call].identity.value)
  }

  predicate EntryOk(calls: seq<Call>, k: Key, x: Entry) {
    Sender(calls, x.call, k)
    && x.producerId == calls[x.call].identity.value.producerId
    && x.baseSequence == calls[x.call].identity.value.baseSequence
    && x.records == ProtocolRecords(calls[x.call].job.messages)
  }

  ghost predicate FramesOk(s: State) {
    forall i :: 0 <= i < |s.net| ==> FrameOk(s.calls, s.net[i])
  }

  // -------------------------------------------------------------------- the log

  /** Every batch with a producer id starts where the batches before it end. */
  predicate Contiguous(log: seq<Entry>) {
    log == []
    || (Contiguous(log[..|log| - 1]) &&
        var last := log[|log| - 1];
        last.producerId >= 0 ==> last.baseSequence == Expected(log[..|log| - 1], last.producerId))
  }

  /** The batches lie in the partition one after the other, below `end`. */
  predicate Placed(log: seq<Entry>, end: nat) {
    log == []
    || (var last := log[|log| - 1];
        last.offset + |last.records| <= end && Placed(log[..|log| - 1], last.offset))
  }

  ghost predicate LogOk(s: State, k: Key) {
    && (forall i :: 0 <= i < |Log(s, k)| ==> EntryOk(s.calls, k, Log(s, k)[i]))
    && Contiguous(Log(s, k))
    && Placed(Log(s, k), End(s, k))
  }

  ghost predicate Logged(log: seq<Entry>, producerId: Int64, baseSequence: Int32, offset: nat) {
    exists j :: 0 <= j < |log| && log[j].producerId == producerId && log[j].baseSequence == baseSequence
                && log[j].offset == offset
  }

  /** An acknowledgement names the offset of a batch in the log that has its call's identity. */
  ghost predicate AckOk(s: State, a: Ack) {
    a.call < |s.calls| && s.calls[a.call].job.Deliver? &&
    Sender(s.calls, a.call, s.calls[a.call].job.key) &&
    var call := s.calls[a.call];
    Logged(Log(s, call.job.key), call.identity.value.producerId, call.identity.value.baseSequence, a.offset)
  }

  ghost predicate AcksOk(s: State) {
    forall a :: a in s.acks ==> AckOk(s, a)
  }

  // --------------------------------------------------------------- acknowledged calls

  function Messages(calls: seq<Call>, c: nat): seq<Message> {
    if c < |calls| && calls[c].job.Deliver? then calls[c].job.messages else []
  }

  /** The number of records of these calls. */
  function Total(calls: seq<Call>, list: seq<nat>): nat {
    if list == [] then 0 else Total(calls, list[..|list| - 1]) + |Messages(calls, list[|list| - 1])|
  }

  predicate StoredCall(calls: seq<Call>, c: nat, k: Key) {
    c < |calls| && calls[c].job.Deliver? && calls[c].job.key == k && StoredResult(calls[c])
  }

  /** The acknowledged calls are distinct, and each starts its sequence numbers where the ones
      before it end. */
  predicate Chain(calls: seq<Call>, k: Key, list: seq<nat>) {
    list == []
    || (var front, last := list[..|list| - 1], list[|list| - 1];
        && Chain(calls, k, front) && last !in front
        && StoredCall(calls, last, k) && calls[last].identity.Some?
        && calls[last].identity.value.baseSequence == Cast32(Total(calls, front)))
  }

  ghost predicate CommitsOk(s: State, k: Key) {
    && Chain(s.calls, k, AckedCalls(s, k))
    && Sequence(s, k) == Cast32(Total(s.calls, AckedCalls(s, k)))
    && (forall c :: StoredCall(s.calls, c, k) ==> c in AckedCalls(s, k))
  }

  // --------------------------------------------------------------------- the ledger

  /** No call on the key failed after it had transmitted a request, no call on it works without a
      producer id, and its sequence numbers have not wrapped. */
  ghost predicate Clean(s: State, k: Key) {
    && (forall c :: 0 <= c < |s.calls| && s.calls[c].job.Deliver? && s.calls[c].job.key == k ==>
                      CleanCall(s.calls[c]))
    && Total(s.calls, AckedCalls(s, k)) <= MAX_INT32
  }

  predicate CleanCall(call: Call) {
    && (call.identity.Some? ==> call.identity.value.producerId >= 0)
    && !(FailedResult(call) && call.frames > 0)
  }

  function CallsOf(log: seq<Entry>): (list: seq<nat>)
    ensures |list| == |log|
  {
    seq(|log|, i requires 0 <= i < |log| => log[i].call)
  }

  predicate Active(calls: seq<Call>, c: nat, k: Key) {
    c < |calls| && calls[c].job.Deliver? && calls[c].job.key == k && Delivering(calls[c].phase)
  }

  /** The log is the acknowledged calls in the order of their acknowledgement, followed by at most
      one that is still undecided. */
  predicate Ledger(s: State, k: Key) {
    var logged, acked := CallsOf(Log(s, k)), AckedCalls(s, k);
    logged == acked
    || (|logged| > 0 && logged[..|logged| - 1] == acked && Active(s.calls, logged[|logged| - 1], k))
  }

  // ------------------------------------------------------------ stable under growth

  lemma {:induction false} TotalExtends(before: seq<Call>, after: seq<Call>, list: seq<nat>)
    requires Extends(before, after) && forall i :: 0 <= i < |list| ==> list[i] < |before|
    ensures Total(after, list) == Total(before, list)
  {
    if list != [] {
      TotalExtends(before, after, list[..|list| - 1]);
      assert Grown(before[list[|list| - 1]], after[list[|list| - 1]]);
    }
  }

  lemma {:induction false} ChainValid(calls: seq<Call>, k: Key, list: seq<nat>)
    requires Chain(calls, k, list)
    ensures forall i :: 0 <= i < |list| ==> StoredCall(calls, list[i], k)
  {
    if list != [] {
      ChainValid(calls, k, list[..|list| - 1]);
    }
  }

  lemma {:induction false} ChainExtends(before: seq<Call>, after: seq<Call>, k: Key, list: seq<nat>)
    requires Extends(before, after) && Chain(before, k, list)
    ensures Chain(after, k, list)
  {
    hide Extends, StoredResult;
    if list != [] {
      var front, last := list[..|list| - 1], list[|list| - 1];
      ChainExtends(before, after, k, front);
      ChainValid(before, k, front);
      TotalExtends(before, after, front);
      ExtendsAt(before, after, last);
    }
  }

  lemma ExtendsAt(before: seq<Call>, after: seq<Call>, c: nat)
    requires Extends(before, after) && c < |before|
    ensures c < |after| && Grown(before[c], after[c])
  {}

  lemma EntryExtends(before: seq<Call>, after: seq<Call>, k: Key, x: Entry)
    requires Extends(before, after) && EntryOk(before, k, x)
    ensures EntryOk(after, k, x)
  {
    ExtendsAt(before, after, x.call);
  }

  lemma FrameExtends(before: seq<Call>, after: seq<Call>, f: Frame)
    requires Extends(before, after) && FrameOk(before, f)
    ensures FrameOk(after, f)
  {
    hide Carries;
    ExtendsAt(before, after, f.call);
  }

  lemma {:induction false} ContiguousPrefix(log: seq<Entry>, i: nat)
    requires Contiguous(log) && i <= |log|
    ensures Contiguous(log[..i])
    decreases |log|
  {
    if i < |log| {
      ContiguousPrefix(log[..|log| - 1], i);
      assert log[..|log| - 1][..i] == log[..i];
    } else {
      assert log[..i] == log;
    }
  }

  lemma {:induction false} ExpectedGrows(log: seq<Entry>, i: nat, producerId: Int64)
    requires i <= |log|
    ensures Expected(log[..i], producerId) <= Expected(log, producerId)
    ensures i < |log| && log[i].producerId == producerId ==>
              Expected(log[..i], producerId) + |log[i].records| <= Expected(log, producerId)
    decreases |log|
  {
    if i < |log| {
      var front := log[..|log| - 1];
      ExpectedGrows(front, i, producerId);
      assert front[..i] == log[..i];
    } else {
      assert log[..i] == log;
    }
  }

  /** The base sequence of an entry is the number of records before it. */
  lemma BaseIsExpected(log: seq<Entry>, i: nat)
    requires Contiguous(log) && i < |log| && log[i].producerId >= 0
    ensures log[i].baseSequence == Expected(log[..i], log[i].producerId)
  {
    ContiguousPrefix(log, i + 1);
    assert log[..i + 1][..i] == log[..i];
  }

  lemma {:induction false} TotalGrows(calls: seq<Call>, list: seq<nat>, i: nat)
    requires i < |list|
    ensures Total(calls, list[..i]) + |Messages(calls, list[i])| <= Total(calls, list)
    decreases |list|
  {
    var front := list[..|list| - 1];
    if i < |list| - 1 {
      TotalGrows(calls, front, i);
      assert front[..i] == list[..i];
    }
  }

  /** In a log of one producer, the expected sequence number counts the records of its calls. */
  lemma {:induction false} ExpectedIsTotal(calls: seq<Call>, k: Key, log: seq<Entry>, producerId: Int64)
    requires forall i :: 0 <= i < |log| ==> EntryOk(calls, k, log[i]) && log[i].producerId == producerId
    ensures Expected(log, producerId) == Total(calls, CallsOf(log))
  {
    if log != [] {
      var front := log[..|log| - 1];
      ExpectedIsTotal(calls, k, front, producerId);
      assert CallsOf(log)[..|log| - 1] == CallsOf(front);
      assert EntryOk(calls, k, log[|log| - 1]);
    }
  }

  lemma {:induction false} ChainAt(calls: seq<Call>, k: Key, list: seq<nat>, i: nat)
    requires Chain(calls, k, list) && i < |list|
    ensures StoredCall(calls, list[i], k) && calls[list[i]].identity.Some?
    ensures calls[list[i]].identity.value.baseSequence == Cast32(Total(calls, list[..i]))
    ensures list[i] !in list[..i]
    decreases |list|
  {
    var front := list[..|list| - 1];
    if i < |list| - 1 {
      ChainAt(calls, k, front, i);
      assert front[..i] == list[..i];
    }
  }

  lemma Cast32Below(n: nat)
    ensures Cast32(n) <= n
    ensures n <= MAX_INT32 ==> Cast32(n) == n
  {}

  lemma Cast32Sum(n: nat, m: nat)
    ensures Cast32(Cast32(n) + m) == Cast32(n + m)
  {}
}
