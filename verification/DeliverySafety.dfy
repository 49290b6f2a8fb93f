/** What the delivery protocol guarantees over whole runs: exactly-once append, contiguous
    sequence numbers, one identity per batch, mutual exclusion. */
module DeliverySafety {
  import opened Wrappers
  import opened Wire
  import opened RecordBatches
  import opened RecordBatchSets
  import opened ProducerBatches
  import opened Delivery
  import opened DeliveryInvariant
  import opened DeliveryLedger
  import opened DeliveryRuns

  /** Some run of some idempotent producer ends in `s`. */
  ghost predicate Reachable(cfg: Config, s: State) {
    exists producerId, epoch, labels :: Run(cfg, Initial(producerId, epoch), labels) == Some(s)
  }

  lemma ReachableHolds(cfg: Config, s: State)
    requires Reachable(cfg, s)
    ensures Inv(cfg, s)
  {
    hide Inv, Run, Initial;
    var producerId, epoch, labels :| Run(cfg, Initial(producerId, epoch), labels) == Some(s);
    RunKeeps(cfg, producerId, epoch, labels);
  }

  lemma OneMore(cfg: Config, s: State, l: Label)
    requires Reachable(cfg, s) && Apply(cfg, s, l).Some?
    ensures Reachable(cfg, Apply(cfg, s, l).value)
  {
    hide Apply, Initial;
    var producerId, epoch, labels :| Run(cfg, Initial(producerId, epoch), labels) == Some(s);
    assert (labels + [l])[..|labels|] == labels;
    assert Run(cfg, Initial(producerId, epoch), labels + [l]) == Some(Apply(cfg, s, l).value);
  }

  lemma Stepped(cfg: Config, s: State, c: nat, m: Move, e: Effect)
    requires Reachable(cfg, s) && Possible(cfg, s, c, m, e)
    ensures Reachable(cfg, Carry(s, c, e))
  {
    hide Act, Reachable, Carry, TokenFree;
    OneMore(cfg, s, Step(c, m));
  }

  // ------------------------------------------------------------------ mutual exclusion

  /** At most one call is between taking and giving back a key's ordering lock, or inside the
      initialisation; at most `maxInFlight` calls are inside a request to one endpoint; and the
      length of each channel is the number of its holders. */
  lemma MutualExclusion(cfg: Config, s: State, r: Resource)
    requires Reachable(cfg, s)
    ensures Tokens(s, r) == Holders(s.calls, r)
    ensures Holders(s.calls, r) <= (if r.Slot? then cfg.maxInFlight else 1)
    ensures !r.Slot? ==>
              forall c, d :: 0 <= c < |s.calls| && 0 <= d < |s.calls| && Holds(s.calls[c], r) && Holds(s.calls[d], r)
                             ==> c == d
  {
    ReachableHolds(cfg, s);
    hide Holders, CallsOk, FramesOk, AcksOk, LogOk, CommitsOk, Clean, Ledger, Holds;
    assert Tokens(s, r) == Holders(s.calls, r) <= Capacity(cfg, r);
    if !r.Slot? {
      forall c, d | 0 <= c < |s.calls| && 0 <= d < |s.calls| && Holds(s.calls[c], r) && Holds(s.calls[d], r)
        ensures c == d
      {
        OneHolder(cfg, s, c, d, r);
      }
    }
  }

  // --------------------------------------------------------------- one identity per batch

  /** All requests of one call, over all its attempts, carry the same records under the same
      producer id, epoch and base sequence. */
  lemma AttemptsAgree(cfg: Config, s: State, i: nat, j: nat)
    requires Reachable(cfg, s) && i < |s.net| && j < |s.net| && s.net[i].call == s.net[j].call
    ensures s.net[i].call < |s.calls| && s.calls[s.net[i].call].job.Deliver?
    ensures exists x, y ::
              && ParseSet(s.net[i].bytes) == Batches([x]) && ParseSet(s.net[j].bytes) == Batches([y])
              && x.producerId == y.producerId && x.producerEpoch == y.producerEpoch
              && x.baseSequence == y.baseSequence
              && x.records == y.records == ProtocolRecords(s.calls[s.net[i].call].job.messages)
  {
    ReachableHolds(cfg, s);
    hide ParseSet, CallsOk, TokensCounted, AcksOk, LogOk, CommitsOk, Clean, Ledger;
    FrameAt(s, i);
    FrameAt(s, j);
    hide FramesOk, Inv;
    var x, y := ParseSet(s.net[i].bytes).list[0], ParseSet(s.net[j].bytes).list[0];
    assert ParseSet(s.net[i].bytes) == Batches([x]) && ParseSet(s.net[j].bytes) == Batches([y]);
  }

  /** Once a producer id is known it never changes, and every batch with an id has that one. */
  lemma IdentityIsFixed(cfg: Config, s: State, l: Label)
    requires Reachable(cfg, s) && Apply(cfg, s, l).Some?
    ensures s.producerId >= 0 ==>
              var t := Apply(cfg, s, l).value; t.producerId == s.producerId && t.epoch == s.epoch
    ensures forall c :: 0 <= c < |s.calls| && s.calls[c].identity.Some? && s.calls[c].identity.value.producerId >= 0
                        ==> s.calls[c].identity.value.producerId == s.producerId
                            && s.calls[c].identity.value.epoch == s.epoch
  {
    ReachableHolds(cfg, s);
    hide TokensCounted, FramesOk, AcksOk, LogOk, CommitsOk, Clean, Ledger, Shape, BytesOk, AnswerOk, Reachable;
    assert forall c :: 0 <= c < |s.calls| ==> IdentityOk(s, s.calls[c]);
    if l.Step? && s.producerId >= 0 {
      SharedIdentity(cfg, s, l.call, l.move);
    } else if l.Receive? {
      assert FrameOk(s.calls, s.net[l.frame]) by {
        assert FramesOk(s);
        FrameAt(s, l.frame);
      }
      hide Handle;
      var b := HandleReads(s, s.net[l.frame]);
      StoreLeaves(s, s.net[l.frame], b);
    }
  }

  lemma FrameAt(s: State, i: nat)
    requires FramesOk(s) && i < |s.net|
    ensures FrameOk(s.calls, s.net[i])
  {}

  lemma SharedIdentity(cfg: Config, s: State, c: nat, m: Move)
    requires CallsOk(s) && s.producerId >= 0 && c < |s.calls|
    requires Apply(cfg, s, Step(c, m)).Some?
    ensures var t := Apply(cfg, s, Step(c, m)).value; t.producerId == s.producerId && t.epoch == s.epoch
  {
    hide Act, TokenFree, Handle, MoveToken, BytesOk, AnswerOk;
    var e := Act(cfg, s, c, s.calls[c], m).value;
    assert Shape(s.calls[c]) && IdentityOk(s, s.calls[c]);
    ActIsLawful(cfg, s, c, s.calls[c], m);
    hide Shape;
  }

  // ---------------------------------------------------------------- contiguous sequences

  /** The acknowledged batches of a key are distinct calls on that key, and carry base sequences
      0, n1, n1 + n2, ... (modulo 2^32); the producer's counter stands after the last one. */
  lemma SequencesAreContiguous(cfg: Config, s: State, k: Key, i: nat)
    requires Reachable(cfg, s) && i <= |AckedCalls(s, k)|
    ensures var acked := AckedCalls(s, k);
            if i == |acked| then Sequence(s, k) == Cast32(Total(s.calls, acked))
            else
              && StoredCall(s.calls, acked[i], k) && acked[i] !in acked[..i]
              && s.calls[acked[i]].identity.Some?
              && s.calls[acked[i]].identity.value.baseSequence == Cast32(Total(s.calls, acked[..i]))
    ensures forall c :: StoredCall(s.calls, c, k) ==> c in AckedCalls(s, k)
  {
    ReachableHolds(cfg, s);
    assert CommitsOk(s, k);
    hide Inv, Chain, Total, StoredCall;
    var acked := AckedCalls(s, k);
    if i < |acked| {
      ChainAt(s.calls, k, acked, i);
    } else {
      assert acked[..i] == acked;
    }
  }

  // ------------------------------------------------------------------- at most once

  /** Whatever is lost, repeated, delayed or answered with an error: no batch with a producer id
      is ever appended twice. */
  lemma AppendedAtMostOnce(cfg: Config, s: State, k: Key, i: nat, j: nat)
    requires Reachable(cfg, s) && i < j < |Log(s, k)| && Log(s, k)[i].producerId >= 0
    ensures Log(s, k)[i].call != Log(s, k)[j].call
  {
    ReachableHolds(cfg, s);
    assert LogOk(s, k);
    hide Inv, Log, Contiguous, Placed, Expected;
    var log := Log(s, k);
    assert EntryOk(s.calls, k, log[i]) && EntryOk(s.calls, k, log[j]);
    if log[i].call == log[j].call {
      BaseIsExpected(log, i);
      BaseIsExpected(log, j);
      ExpectedGrows(log[..j], i, log[i].producerId);
      assert log[..j][..i] == log[..i];
      InvCalls(cfg, s);
      EntryIsNotEmpty(s, k, log[i]);
    }
  }

  lemma InvCalls(cfg: Config, s: State)
    requires Inv(cfg, s)
    ensures CallsOk(s) && TokensCounted(cfg, s) && AcksOk(s) && FramesOk(s)
  {}

  // -------------------------------------------------------------------- exactly once

  /** The records a list of calls was given, in order, as the protocol numbers them. */
  function RecordsGiven(calls: seq<Call>, list: seq<nat>): seq<Record> {
    if list == [] then []
    else RecordsGiven(calls, list[..|list| - 1]) + ProtocolRecords(Messages(calls, list[|list| - 1]))
  }

  /** The records that stand in the partition. */
  function RecordsKept(log: seq<Entry>): seq<Record> {
    if log == [] then [] else RecordsKept(log[..|log| - 1]) + log[|log| - 1].records
  }

  lemma {:induction false} KeptAsGiven(calls: seq<Call>, k: Key, log: seq<Entry>)
    requires forall i :: 0 <= i < |log| ==> EntryOk(calls, k, log[i])
    ensures RecordsKept(log) == RecordsGiven(calls, CallsOf(log))
  {
    hide EntryOk, ProtocolRecords, Messages;
    if log != [] {
      var front := log[..|log| - 1];
      KeptAsGiven(calls, k, front);
      assert CallsOf(log)[..|log| - 1] == CallsOf(front);
      EntryRecords(calls, k, log[|log| - 1]);
    }
  }

  lemma EntryRecords(calls: seq<Call>, k: Key, x: Entry)
    requires EntryOk(calls, k, x)
    ensures x.records == ProtocolRecords(Messages(calls, x.call))
  {}

  /** As long as no call on a key has failed after transmitting, the partition holds the records
      of the acknowledged calls, in the order of their acknowledgement, each exactly once,
      followed by those of at most one call that is still being delivered. */
  lemma ExactlyOnce(cfg: Config, s: State, k: Key)
    requires Reachable(cfg, s) && Clean(s, k)
    ensures var acked, kept := RecordsGiven(s.calls, AckedCalls(s, k)), RecordsKept(Log(s, k));
            || kept == acked
            || exists c :: Active(s.calls, c, k) && kept == acked + ProtocolRecords(Messages(s.calls, c))
  {
    ReachableHolds(cfg, s);
    assert LogOk(s, k) && Ledger(s, k);
    hide Inv, Reachable, Log, Contiguous, Placed, AckedCalls, RecordsKept, Messages, Clean, Active;
    var log := Log(s, k);
    KeptAsGiven(s.calls, k, log);
    var logged := CallsOf(log);
    if logged != AckedCalls(s, k) {
      assert Active(s.calls, logged[|logged| - 1], k);
    }
  }

  /** On such a key an acknowledged call was told the very offset at which its records stand. */
  lemma AcknowledgedOffset(cfg: Config, s: State, k: Key, i: nat)
    requires Reachable(cfg, s) && Clean(s, k) && i < |AckedCalls(s, k)|
    ensures i < |Log(s, k)| && StoredCall(s.calls, AckedCalls(s, k)[i], k)
    ensures var call := s.calls[AckedCalls(s, k)[i]];
            && Log(s, k)[i].call == AckedCalls(s, k)[i]
            && Log(s, k)[i].records == ProtocolRecords(call.job.messages)
            && Log(s, k)[i].offset == call.phase.result.offset
  {
    ReachableHolds(cfg, s);
    assert LogOk(s, k) && CommitsOk(s, k) && Ledger(s, k);
    InvCalls(cfg, s);
    var log, acked := Log(s, k), AckedCalls(s, k);
    hide Inv, Reachable, Log, Contiguous, Placed, AckedCalls, Chain, Total, FramesOk, TokensCounted, Sequence;
    ChainAt(s.calls, k, acked, i);
    var c := acked[i];
    assert CallsOf(log)[i] == c;
    assert EntryOk(s.calls, k, log[i]);
    var j := AckedAt(s, c);
    SameBatch(s, k, i, j);
  }

  /** In a clean log no two batches have the same base sequence. */
  lemma SameBatch(s: State, k: Key, i: nat, j: nat)
    requires CallsOk(s) && LogOk(s, k) && Clean(s, k) && i < |Log(s, k)| && j < |Log(s, k)|
    requires Log(s, k)[i].baseSequence == Log(s, k)[j].baseSequence
    ensures i == j
  {
    var log := Log(s, k);
    hide Log, Contiguous, Placed, Total, Clean, CallsOk, EntryOk;
    LoggedAt(s, k, i);
    LoggedAt(s, k, j);
    if i != j {
      var lo, hi := if i < j then i else j, if i < j then j else i;
      TotalGrows(s.calls, CallsOf(log)[..hi], lo);
      assert CallsOf(log)[..hi][..lo] == CallsOf(log)[..lo];
      EntryIsNotEmpty(s, k, log[lo]);
    }
  }

  /** The log entry an acknowledged call was told of. */
  lemma AckedAt(s: State, c: nat) returns (j: nat)
    requires CallsOk(s) && AcksOk(s) && c < |s.calls| && s.calls[c].job.Deliver? && StoredResult(s.calls[c])
    ensures var log := Log(s, s.calls[c].job.key);
            && s.calls[c].identity.Some? && j < |log| && log[j].offset == s.calls[c].phase.result.offset
            && log[j].baseSequence == s.calls[c].identity.value.baseSequence
            && log[j].producerId == s.calls[c].identity.value.producerId
  {
    var call := s.calls[c];
    hide Shape, BytesOk, IdentityOk, Log;
    assert AnswerOk(s.acks, c, call);
    var a :| Ack(c, a, call.phase.result.offset) in s.acks;
    assert AckOk(s, Ack(c, a, call.phase.result.offset));
    var id := call.identity.value;
    j :| 0 <= j < |Log(s, call.job.key)| && Log(s, call.job.key)[j].producerId == id.producerId
         && Log(s, call.job.key)[j].baseSequence == id.baseSequence
         && Log(s, call.job.key)[j].offset == call.phase.result.offset;
  }

  /** The batches of a log never overlap, whatever other producers append in between. */
  lemma OffsetsDoNotOverlap(cfg: Config, s: State, k: Key, i: nat, j: nat)
    requires Reachable(cfg, s) && i < j < |Log(s, k)|
    ensures Log(s, k)[i].offset + |Log(s, k)[i].records| <= Log(s, k)[j].offset
    ensures Log(s, k)[j].offset + |Log(s, k)[j].records| <= End(s, k)
  {
    ReachableHolds(cfg, s);
    assert LogOk(s, k);
    hide Inv, Log, End, Placed;
    PlacedApart(Log(s, k), End(s, k), i, j);
  }

  lemma {:induction false} PlacedApart(log: seq<Entry>, end: nat, i: nat, j: nat)
    requires Placed(log, end) && i <= j < |log|
    ensures i < j ==> log[i].offset + |log[i].records| <= log[j].offset
    ensures log[j].offset + |log[j].records| <= end
    decreases |log|
  {
    var n := |log| - 1;
    if j < n {
      PlacedApart(log[..n], log[n].offset, i, j);
    } else if i < n {
      PlacedApart(log[..n], log[n].offset, i, i);
    }
  }
}
