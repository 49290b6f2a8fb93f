/** What an acknowledgement is worth to the call that got it: whether its records stand in the
    partition, decided call by call. */
module DeliveryOutcomes {
  import opened Wrappers
  import opened Wire
  import opened RecordBatches
  import opened ProducerBatches
  import opened Delivery
  import opened DeliveryInvariant
  import opened DeliveryLedger
  import opened DeliveryRuns
  import opened DeliverySafety

  /** The call was told that its batch, sent under a producer id, was stored. */
  predicate StoredWithId(s: State, c: nat, k: Key) {
    StoredCall(s.calls, c, k) && s.calls[c].identity.Some? && s.calls[c].identity.value.producerId >= 0
  }

  /** Call `c` was acknowledged before call `d`. */
  ghost predicate AckedBefore(s: State, k: Key, c: nat, d: nat) {
    exists i, j :: 0 <= i < j < |AckedCalls(s, k)| && AckedCalls(s, k)[i] == c && AckedCalls(s, k)[j] == d
  }

  predicate HasIdentity(x: Entry, id: Identity) {
    x.producerId == id.producerId && x.baseSequence == id.baseSequence
  }

  /** A call on the key that failed after it had transmitted, with this base sequence. */
  predicate Rival(s: State, d: nat, k: Key, baseSequence: Int32) {
    Sender(s.calls, d, k) && FailedResult(s.calls[d]) && s.calls[d].identity.value.baseSequence == baseSequence
  }

  /** The records of call `c` stand in the partition, at this offset. */
  ghost predicate Kept(s: State, c: nat, k: Key, offset: nat) {
    exists i :: 0 <= i < |Log(s, k)| && KeptAt(s, c, Log(s, k)[i], offset)
  }

  predicate KeptAt(s: State, c: nat, x: Entry, offset: nat) {
    x.call == c && x.records == ProtocolRecords(Messages(s.calls, c)) && x.offset == offset
  }

  /** No two batches of a log have the same identity. */
  lemma IdentityIsUnique(s: State, k: Key, i: nat, j: nat, id: Identity)
    requires CallsOk(s) && LogOk(s, k) && id.producerId >= 0
    requires i < |Log(s, k)| && HasIdentity(Log(s, k)[i], id)
    requires j < |Log(s, k)| && HasIdentity(Log(s, k)[j], id)
    ensures i == j
  {
    var log := Log(s, k);
    hide Log, Contiguous, Placed, Expected, CallsOk;
    var lo, hi := if i < j then i else j, if i < j then j else i;
    if lo < hi {
      assert EntryOk(s.calls, k, log[lo]);
      BaseIsExpected(log, lo);
      BaseIsExpected(log, hi);
      ExpectedGrows(log[..hi], lo, id.producerId);
      assert log[..hi][..lo] == log[..lo];
      EntryIsNotEmpty(s, k, log[lo]);
    }
  }

  /** Whoever has transmitted under the identity of an acknowledged call is that call or has failed:
      acknowledged calls have different base sequences, and a delivering one starts after them. */
  lemma RivalsHaveFailed(s: State, c: nat, d: nat, k: Key)
    requires CallsOk(s) && CommitsOk(s, k) && Total(s.calls, AckedCalls(s, k)) <= MAX_INT32
    requires StoredCall(s.calls, c, k) && s.calls[c].identity.Some? && Sender(s.calls, d, k) && d != c
    requires s.calls[d].identity.value.baseSequence == s.calls[c].identity.value.baseSequence
    ensures FailedResult(s.calls[d])
  {
    var call := s.calls[d];
    assert Shape(call) && IdentityOk(s, call);
    if StoredResult(call) {
      StoredApart(s, c, d, k);
    } else if Delivering(call.phase) {
      AckedIsBehind(s, k, c);
      Cast32Below(Total(s.calls, AckedCalls(s, k)));
    }
  }

  /** Two acknowledged calls have different base sequences. */
  lemma StoredApart(s: State, c: nat, d: nat, k: Key)
    requires CallsOk(s) && CommitsOk(s, k) && Total(s.calls, AckedCalls(s, k)) <= MAX_INT32
    requires StoredCall(s.calls, c, k) && StoredCall(s.calls, d, k) && c != d
    ensures s.calls[c].identity.Some? && s.calls[d].identity.Some?
    ensures s.calls[c].identity.value.baseSequence != s.calls[d].identity.value.baseSequence
  {
    var acked := AckedCalls(s, k);
    var i :| 0 <= i < |acked| && acked[i] == c;
    var j :| 0 <= j < |acked| && acked[j] == d;
    hide AckedCalls, Chain, Total, Sequence;
    if i < j {
      BasesAscend(s, k, i, j);
    } else {
      BasesAscend(s, k, j, i);
    }
  }

  /** The base sequences of acknowledged calls grow in the order of their acknowledgement. */
  lemma BasesAscend(s: State, k: Key, i: nat, j: nat)
    requires CallsOk(s) && CommitsOk(s, k) && Total(s.calls, AckedCalls(s, k)) <= MAX_INT32
    requires i < j < |AckedCalls(s, k)|
    ensures var acked := AckedCalls(s, k);
            && StoredCall(s.calls, acked[i], k) && s.calls[acked[i]].identity.Some?
            && StoredCall(s.calls, acked[j], k) && s.calls[acked[j]].identity.Some?
            && s.calls[acked[i]].identity.value.baseSequence + |Messages(s.calls, acked[i])|
               <= s.calls[acked[j]].identity.value.baseSequence
            && |Messages(s.calls, acked[i])| > 0
  {
    var acked := AckedCalls(s, k);
    hide AckedCalls, Chain, Total, Sequence;
    ChainAt(s.calls, k, acked, i);
    ChainAt(s.calls, k, acked, j);
    TotalGrows(s.calls, acked, j);
    TotalGrows(s.calls, acked[..j], i);
    assert acked[..j][..i] == acked[..i];
    Cast32Below(Total(s.calls, acked[..i]));
    Cast32Below(Total(s.calls, acked[..j]));
    assert Shape(s.calls[acked[i]]);
  }

  /** The one batch in the partition that has the identity of an acknowledged call stands where the
      call was told.  The call's own records stand in the partition if and only if that batch is its
      own; if it is not, it belongs to a call that failed after transmitting under the same base
      sequence. */
  lemma StoredOrRivalled(cfg: Config, s: State, c: nat, k: Key) returns (j: nat)
    requires Reachable(cfg, s) && StoredWithId(s, c, k) && Total(s.calls, AckedCalls(s, k)) <= MAX_INT32
    ensures var call, log := s.calls[c], Log(s, k);
            && j < |log| && HasIdentity(log[j], call.identity.value) && log[j].offset == call.phase.result.offset
            && (forall i :: 0 <= i < |log| && HasIdentity(log[i], call.identity.value) ==> i == j)
            && (Kept(s, c, k, call.phase.result.offset) <==> log[j].call == c)
            && (log[j].call != c <==> Rival(s, log[j].call, k, call.identity.value.baseSequence))
            && forall i :: 0 <= i < |log| && log[i].call == c ==> i == j
  {
    ReachableHolds(cfg, s);
    InvCalls(cfg, s);
    assert LogOk(s, k) && CommitsOk(s, k);
    hide Reachable, Inv, Sequence;
    j := AckedAt(s, c);
    var id, log := s.calls[c].identity.value, Log(s, k);
    hide Log, CallsOk, AcksOk, Contiguous, Placed, Total, AckedCalls, CommitsOk;
    forall i | 0 <= i < |log| && HasIdentity(log[i], id)
      ensures i == j
    {
      IdentityIsUnique(s, k, i, j, id);
    }
    assert EntryOk(s.calls, k, log[j]);
    forall i | 0 <= i < |log| && log[i].call == c
      ensures i == j
    {
      assert EntryOk(s.calls, k, log[i]);
    }
    if log[j].call != c {
      RivalsHaveFailed(s, c, log[j].call, k);
    } else {
      EntryRecords(s.calls, k, log[j]);
      assert KeptAt(s, c, log[j], s.calls[c].phase.result.offset);
    }
  }

  /** Whoever is told that its records were stored finds exactly them in the partition, at that
      offset, unless a call on the key failed after it had transmitted under the same base sequence. */
  lemma StoredIsLogged(cfg: Config, s: State, c: nat, k: Key)
    requires Reachable(cfg, s) && StoredWithId(s, c, k) && Total(s.calls, AckedCalls(s, k)) <= MAX_INT32
    requires forall d :: !Rival(s, d, k, s.calls[c].identity.value.baseSequence)
    ensures Kept(s, c, k, s.calls[c].phase.result.offset)
  {
    hide Reachable, Rival, Kept, Total, AckedCalls;
    var j := StoredOrRivalled(cfg, s, c, k);
  }

  /** The batches with the identities of acknowledged calls stand in the order of the
      acknowledgements. */
  lemma StoredInOrder(cfg: Config, s: State, k: Key, c: nat, d: nat, p: nat, q: nat)
    requires Reachable(cfg, s) && Total(s.calls, AckedCalls(s, k)) <= MAX_INT32
    requires StoredWithId(s, c, k) && StoredWithId(s, d, k) && AckedBefore(s, k, c, d)
    requires p < |Log(s, k)| && HasIdentity(Log(s, k)[p], s.calls[c].identity.value)
    requires q < |Log(s, k)| && HasIdentity(Log(s, k)[q], s.calls[d].identity.value)
    ensures p < q && Log(s, k)[p].offset + |Log(s, k)[p].records| <= Log(s, k)[q].offset
  {
    ReachableHolds(cfg, s);
    assert LogOk(s, k);
    hide Inv, Log, AckedCalls, Contiguous, Placed, Total, Expected, Chain, Reachable;
    AckedAscend(cfg, s, k, c, d);
    BasesTellOrder(Log(s, k), p, q);
    OffsetsDoNotOverlap(cfg, s, k, p, q);
  }

  lemma AckedAscend(cfg: Config, s: State, k: Key, c: nat, d: nat)
    requires Reachable(cfg, s) && Total(s.calls, AckedCalls(s, k)) <= MAX_INT32
    requires StoredWithId(s, c, k) && StoredWithId(s, d, k) && AckedBefore(s, k, c, d)
    ensures s.calls[c].identity.value.producerId == s.calls[d].identity.value.producerId
    ensures s.calls[c].identity.value.baseSequence < s.calls[d].identity.value.baseSequence
  {
    ReachableHolds(cfg, s);
    InvCalls(cfg, s);
    assert CommitsOk(s, k);
    assert IdentityOk(s, s.calls[c]) && IdentityOk(s, s.calls[d]);
    hide Inv, CallsOk, AckedCalls, Total, CommitsOk;
    var i, j :| 0 <= i < j < |AckedCalls(s, k)| && AckedCalls(s, k)[i] == c && AckedCalls(s, k)[j] == d;
    BasesAscend(s, k, i, j);
  }

  lemma BasesTellOrder(log: seq<Entry>, p: nat, q: nat)
    requires Contiguous(log) && p < |log| && q < |log| && log[p].producerId == log[q].producerId >= 0
    requires log[p].baseSequence < log[q].baseSequence
    ensures p < q
  {
    hide Contiguous, Expected;
    BaseIsExpected(log, p);
    BaseIsExpected(log, q);
    if q < p {
      assert log[..p][..q] == log[..q];
      ExpectedGrows(log[..p], q, log[p].producerId);
    }
  }
}
