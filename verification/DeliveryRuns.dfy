/** Every step of the delivery protocol keeps the invariant. */
module DeliveryRuns {
  import opened Wrappers
  import opened Wire
  import opened RecordBatches
  import opened RecordBatchSets
  import opened ProducerBatches
  import opened Delivery
  import opened DeliveryInvariant
  import opened DeliveryLedger

  ghost predicate Inv(cfg: Config, s: State) {
    && TokensCounted(cfg, s)
    && CallsOk(s)
    && FramesOk(s)
    && AcksOk(s)
    && (forall k :: LogOk(s, k))
    && (forall k :: CommitsOk(s, k))
    && (forall k :: Clean(s, k) ==> Ledger(s, k))
  }

  // --------------------------------------------------------------- steps of a call

  predicate CallOk(s: State, call: Call) {
    Shape(call) && BytesOk(call) && IdentityOk(s, call)
  }

  lemma OwnCallKept(cfg: Config, s: State, c: nat, m: Move, e: Effect)
    requires CallsOk(s) && Possible(cfg, s, c, m, e)
    ensures CallOk(Carry(s, c, e), e.call) && AnswerOk(s.acks, c, e.call)
  {
    PossibleFacts(cfg, s, c, m, e);
    ShapeKept(cfg, s, c, s.calls[c], m);
    BytesKept(cfg, s, c, s.calls[c], m);
    AnswerKept(cfg, s, c, s.calls[c], m);
    hide Act, Shape, BytesOk, IdentityOk, AnswerOk, Carry, Lawful, TokenFree, TokenFollows;
    OwnIdentityKept(s, c, e);
  }

  lemma OtherCallKept(cfg: Config, s: State, c: nat, m: Move, e: Effect, d: nat)
    requires TokensCounted(cfg, s) && CallsOk(s) && Possible(cfg, s, c, m, e) && d < |s.calls| && d != c
    ensures CallOk(Carry(s, c, e), s.calls[d]) && AnswerOk(s.acks, d, s.calls[d])
  {
    PossibleFacts(cfg, s, c, m, e);
    CallsApart(cfg, s, c, d);
    hide Act, TokensCounted, Shape, BytesOk, IdentityOk, AnswerOk, Carry, Lawful, TokenFree, TokenFollows, Apart;
    OtherIdentityKept(s, c, e, s.calls[d]);
  }

  lemma CallsKept(cfg: Config, s: State, c: nat, m: Move, e: Effect)
    requires TokensCounted(cfg, s) && CallsOk(s) && Possible(cfg, s, c, m, e)
    ensures CallsOk(Carry(s, c, e))
  {
    CarryFields(s, c, e);
    hide Act, TokensCounted, Shape, BytesOk, IdentityOk, AnswerOk, Carry, TokenFree;
    var t := Carry(s, c, e);
    forall d | 0 <= d < |t.calls|
      ensures Shape(t.calls[d]) && BytesOk(t.calls[d]) && IdentityOk(t, t.calls[d]) && AnswerOk(t.acks, d, t.calls[d])
    {
      if d == c {
        OwnCallKept(cfg, s, c, m, e);
      } else {
        OtherCallKept(cfg, s, c, m, e, d);
      }
    }
  }

  lemma FramesKept(s: State, c: nat, e: Effect)
    requires FramesOk(s) && c < |s.calls| && Shape(s.calls[c]) && BytesOk(s.calls[c]) && Lawful(s, c, s.calls[c], e)
    ensures FramesOk(Carry(s, c, e))
  {
    var t := Carry(s, c, e);
    StepExtends(s, c, e);
    hide FrameOk, Extends, Carries, MoveToken;
    forall i | 0 <= i < |t.net|
      ensures FrameOk(t.calls, t.net[i])
    {
      if i < |s.net| {
        FrameExtends(s.calls, t.calls, s.net[i]);
      } else {
        NewFrame(s, c, e);
      }
    }
  }

  lemma NewFrame(s: State, c: nat, e: Effect)
    requires c < |s.calls| && Shape(s.calls[c]) && BytesOk(s.calls[c]) && Lawful(s, c, s.calls[c], e) && e.change.Emit?
    ensures FrameOk(s.calls[c := e.call], e.change.frame)
  {
    hide Carries;
  }

  lemma LogKept(s: State, t: State, k: Key)
    requires LogOk(s, k) && Extends(s.calls, t.calls) && Log(t, k) == Log(s, k) && End(t, k) >= End(s, k)
    ensures LogOk(t, k)
  {
    hide EntryOk, Extends, Log, End, Contiguous;
    forall i | 0 <= i < |Log(t, k)|
      ensures EntryOk(t.calls, k, Log(t, k)[i])
    {
      EntryExtends(s.calls, t.calls, k, Log(s, k)[i]);
    }
  }

  lemma AckKept(s: State, t: State, a: Ack)
    requires AckOk(s, a) && Extends(s.calls, t.calls)
    requires forall k :: Log(s, k) <= Log(t, k)
    ensures AckOk(t, a)
  {
    ExtendsAt(s.calls, t.calls, a.call);
    var k := s.calls[a.call].job.key;
    assert Log(s, k) <= Log(t, k);
    hide Log;
    var id := s.calls[a.call].identity.value;
    var j :| 0 <= j < |Log(s, k)| && Log(s, k)[j].producerId == id.producerId
             && Log(s, k)[j].baseSequence == id.baseSequence && Log(s, k)[j].offset == a.offset;
    assert Log(t, k)[j] == Log(s, k)[j];
  }

  /** Acknowledgement histories. */
  lemma CommitsKept(s: State, c: nat, e: Effect, k: Key)
    requires CommitsOk(s, k) && c < |s.calls| && Lawful(s, c, s.calls[c], e)
    requires IdentityOk(s, s.calls[c]) && Shape(s.calls[c])
    ensures CommitsOk(Carry(s, c, e), k)
  {
    var t, list := Carry(s, c, e), AckedCalls(s, k);
    assert t.calls == s.calls[c := e.call];
    StepExtends(s, c, e);
    ChainExtends(s.calls, t.calls, k, list);
    ChainValid(s.calls, k, list);
    TotalExtends(s.calls, t.calls, list);
    if e.change.Advance? && e.change.key == k {
      NewCommit(s, c, e);
    } else {
      OldCommits(s, c, e, k);
    }
  }

  lemma StoredBefore(s: State, c: nat, e: Effect, d: nat, k: Key)
    requires c < |s.calls| && Lawful(s, c, s.calls[c], e) && StoredCall(s.calls[c := e.call], d, k)
    ensures StoredCall(s.calls, d, k) || (d == c && e.change.Advance? && e.change.key == k)
  {}

  lemma CarryAcked(s: State, c: nat, e: Effect, k: Key)
    requires c < |s.calls|
    ensures var t := Carry(s, c, e);
            if e.change.Advance? && e.change.key == k then
              AckedCalls(t, k) == AckedCalls(s, k) + [c] && Sequence(t, k) == Cast32(Sequence(s, k) + e.change.count)
            else AckedCalls(t, k) == AckedCalls(s, k) && Sequence(t, k) == Sequence(s, k)
  {
    hide Cast32, MoveToken;
  }

  lemma OldCommits(s: State, c: nat, e: Effect, k: Key)
    requires CommitsOk(s, k) && c < |s.calls| && Lawful(s, c, s.calls[c], e)
    requires !(e.change.Advance? && e.change.key == k)
    ensures AckedCalls(Carry(s, c, e), k) == AckedCalls(s, k) && Sequence(Carry(s, c, e), k) == Sequence(s, k)
    ensures forall d :: StoredCall(Carry(s, c, e).calls, d, k) ==> d in AckedCalls(s, k)
  {
    CarryAcked(s, c, e, k);
    assert Carry(s, c, e).calls == s.calls[c := e.call];
    hide Carry, Chain, Total, Cast32, StoredCall, Lawful, AckedCalls, Sequence;
    forall d | StoredCall(Carry(s, c, e).calls, d, k)
      ensures StoredCall(s.calls, d, k)
    {
      StoredBefore(s, c, e, d, k);
    }
  }

  lemma NewCommit(s: State, c: nat, e: Effect)
    requires e.change.Advance? && CommitsOk(s, e.change.key) && c < |s.calls| && Lawful(s, c, s.calls[c], e)
    requires IdentityOk(s, s.calls[c]) && Shape(s.calls[c])
    requires var t := Carry(s, c, e); var list := AckedCalls(s, e.change.key);
             Chain(t.calls, e.change.key, list) && Total(t.calls, list) == Total(s.calls, list)
    ensures CommitsOk(Carry(s, c, e), e.change.key)
  {
    var t, k := Carry(s, c, e), e.change.key;
    var list := AckedCalls(s, k);
    CarryAcked(s, c, e, k);
    CarryFields(s, c, e);
    assert Sequence(s, k) == Cast32(Total(s.calls, list));
    NewLinkFits(s, c, e);
    hide Carry, Chain, Total, Cast32, StoredCall, Lawful, AckedCalls, Sequence, IdentityOk, Shape;
    Cast32Sum(Total(s.calls, list), e.change.count);
    NewLink(t.calls, k, list, c);
    StoredNow(s, c, e);
  }

  lemma StoredNow(s: State, c: nat, e: Effect)
    requires e.change.Advance? && CommitsOk(s, e.change.key) && c < |s.calls| && Lawful(s, c, s.calls[c], e)
    ensures forall d :: StoredCall(s.calls[c := e.call], d, e.change.key) ==> d in AckedCalls(s, e.change.key) + [c]
  {
    hide Chain, Total, Cast32, StoredCall, Lawful, AckedCalls, Sequence;
    var k := e.change.key;
    forall d | StoredCall(s.calls[c := e.call], d, k)
      ensures d in AckedCalls(s, k) + [c]
    {
      StoredBefore(s, c, e, d, k);
    }
  }

  lemma NewLinkFits(s: State, c: nat, e: Effect)
    requires e.change.Advance? && CommitsOk(s, e.change.key) && c < |s.calls| && Lawful(s, c, s.calls[c], e)
    requires IdentityOk(s, s.calls[c]) && Shape(s.calls[c])
    ensures var calls, k, list := s.calls[c := e.call], e.change.key, AckedCalls(s, e.change.key);
            && c !in list && StoredCall(calls, c, k) && calls[c].identity.Some?
            && calls[c].identity.value.baseSequence == Cast32(Total(s.calls, list))
            && e.change.count == |calls[c].job.messages|
  {
    ChainValid(s.calls, e.change.key, AckedCalls(s, e.change.key));
    hide Chain, Total, Cast32, AckedCalls, Sequence;
  }

  lemma NewLink(calls: seq<Call>, k: Key, list: seq<nat>, c: nat)
    requires Chain(calls, k, list) && c !in list && StoredCall(calls, c, k) && calls[c].identity.Some?
    requires calls[c].identity.value.baseSequence == Cast32(Total(calls, list))
    ensures Chain(calls, k, list + [c])
    ensures Total(calls, list + [c]) == Total(calls, list) + |calls[c].job.messages|
  {
    assert (list + [c])[..|list|] == list;
  }

  // ----------------------------------------------------------- the ledger, call steps

  lemma CleanBefore(s: State, t: State, k: Key)
    requires Clean(t, k) && Extends(s.calls, t.calls) && CommitsOk(s, k)
    requires AckedCalls(s, k) <= AckedCalls(t, k)
    ensures Clean(s, k)
  {
    var list, more := AckedCalls(s, k), AckedCalls(t, k);
    ChainValid(s.calls, k, list);
    TotalExtends(s.calls, t.calls, list);
    if |list| < |more| {
      TotalGrows(t.calls, more, |list|);
      assert more[..|list|] == list;
    } else {
      assert more == list;
    }
    hide Total, Chain, AckedCalls, StoredCall, Sequence;
    forall c | 0 <= c < |s.calls| && s.calls[c].job.Deliver? && s.calls[c].job.key == k
      ensures CleanCall(s.calls[c])
    {
      ExtendsAt(s.calls, t.calls, c);
      assert CleanCall(t.calls[c]);
    }
  }

  /** Every batch in a clean log carries the producer's current id. */
  lemma OneProducer(s: State, k: Key)
    requires CallsOk(s) && LogOk(s, k) && Clean(s, k)
    ensures forall i :: 0 <= i < |Log(s, k)| ==> Log(s, k)[i].producerId == s.producerId >= 0
  {
    hide Log, Contiguous, Placed, Total, Shape, BytesOk, AnswerOk, Sequence, AckedCalls;
    forall i | 0 <= i < |Log(s, k)|
      ensures Log(s, k)[i].producerId == s.producerId >= 0
    {
      var x := Log(s, k)[i];
      assert EntryOk(s.calls, k, x);
      assert CleanCall(s.calls[x.call]) && IdentityOk(s, s.calls[x.call]);
    }
  }

  /** A batch with the base sequence `base` that is in a clean log stands after exactly `base`
      records. */
  lemma LoggedAt(s: State, k: Key, j: nat)
    requires CallsOk(s) && LogOk(s, k) && Clean(s, k) && j < |Log(s, k)|
    ensures Log(s, k)[j].baseSequence == Total(s.calls, CallsOf(Log(s, k))[..j])
  {
    OneProducer(s, k);
    var log := Log(s, k);
    BaseIsExpected(log, j);
    ExpectedIsTotal(s.calls, k, log[..j], s.producerId);
    assert CallsOf(log[..j]) == CallsOf(log)[..j];
  }

  lemma LedgerSteps(s: State, c: nat, e: Effect, k: Key)
    requires c < |s.calls| && Lawful(s, c, s.calls[c], e) && !(e.change.Advance? && e.change.key == k)
    requires LogOk(s, k) && CommitsOk(s, k)
    requires Clean(s, k) ==> Ledger(s, k)
    requires Clean(Carry(s, c, e), k)
    ensures Ledger(Carry(s, c, e), k)
  {
    var t := Carry(s, c, e);
    CarryAcked(s, c, e, k);
    StepExtends(s, c, e);
    assert Log(t, k) == Log(s, k) && t.calls == s.calls[c := e.call];
    CleanBefore(s, t, k);
    var logged := CallsOf(Log(s, k));
    hide Carry, Log, AckedCalls, Extends, CommitsOk, Contiguous, Placed, Total, Sequence;
    if logged != AckedCalls(s, k) && logged[|logged| - 1] == c {
      assert EntryOk(s.calls, k, Log(s, k)[|logged| - 1]);
      assert CleanCall(t.calls[c]);
    }
  }

  lemma LedgerCommits(cfg: Config, s: State, c: nat, e: Effect)
    requires TokensCounted(cfg, s) && CallsOk(s) && AcksOk(s)
    requires c < |s.calls| && Lawful(s, c, s.calls[c], e) && e.change.Advance?
    requires var k := e.change.key;
             LogOk(s, k) && CommitsOk(s, k) && (Clean(s, k) ==> Ledger(s, k)) && Clean(Carry(s, c, e), k)
    ensures Ledger(Carry(s, c, e), e.change.key)
  {
    var t, k := Carry(s, c, e), e.change.key;
    CarryAcked(s, c, e, k);
    StepExtends(s, c, e);
    assert Log(t, k) == Log(s, k) && t.calls == s.calls[c := e.call];
    assert s.calls[c].phase.Commit? && s.calls[c].job.Deliver? && s.calls[c].job.key == k;
    hide Carry, Log, AckedCalls, Extends, LogOk, CommitsOk, CallsOk, AcksOk, TokensCounted, Clean, Lawful, Sequence;
    CleanBefore(s, t, k);
    CommitIsLogged(s, c);
    UndecidedIs(cfg, s, c, k);
  }

  /** The undecided batch at the end of a log is that of the call that is delivering. */
  lemma UndecidedIs(cfg: Config, s: State, c: nat, k: Key)
    requires TokensCounted(cfg, s) && Active(s.calls, c, k)
    requires Ledger(s, k) && CallsOf(Log(s, k)) != AckedCalls(s, k)
    ensures CallsOf(Log(s, k)) == AckedCalls(s, k) + [c]
  {
    hide Log, AckedCalls, TokensCounted;
    var logged := CallsOf(Log(s, k));
    var d := logged[|logged| - 1];
    if d != c {
      CallsApart(cfg, s, c, d);
    }
  }

  /** A call that is about to commit has its batch in the log, after the acknowledged ones. */
  lemma CommitIsLogged(s: State, c: nat)
    requires CallsOk(s) && AcksOk(s) && c < |s.calls| && s.calls[c].phase.Commit? && s.calls[c].job.Deliver?
    requires var k := s.calls[c].job.key;
             LogOk(s, k) && CommitsOk(s, k) && Clean(s, k) && Ledger(s, k)
    ensures CallsOf(Log(s, s.calls[c].job.key)) != AckedCalls(s, s.calls[c].job.key)
  {
    var call := s.calls[c];
    var k := call.job.key;
    var log, acked := Log(s, k), AckedCalls(s, k);
    var base := call.identity.value.baseSequence;
    assert IdentityOk(s, call) && Shape(call) && AnswerOk(s.acks, c, call);
    Cast32Below(Total(s.calls, acked));
    assert base == Total(s.calls, acked);
    var a :| Ack(c, a, call.phase.offset) in s.acks;
    assert AckOk(s, Ack(c, a, call.phase.offset));
    hide Log, AckedCalls, Contiguous, Placed, Chain, Total, BytesOk, IdentityOk, Shape;
    var j :| 0 <= j < |log| && log[j].baseSequence == base;
    LoggedAt(s, k, j);
    if CallsOf(log) == acked {
      TotalGrows(s.calls, acked, j);
      assert EntryOk(s.calls, k, log[j]);
      EntryIsNotEmpty(s, k, log[j]);
    }
  }

  lemma EntryIsNotEmpty(s: State, k: Key, x: Entry)
    requires CallsOk(s) && EntryOk(s.calls, k, x)
    ensures x.call < |s.calls| && Messages(s.calls, x.call) != [] && |x.records| > 0
  {
    assert Shape(s.calls[x.call]);
  }

  lemma PossibleFacts(cfg: Config, s: State, c: nat, m: Move, e: Effect)
    requires CallsOk(s) && Possible(cfg, s, c, m, e)
    ensures c < |s.calls| && Lawful(s, c, s.calls[c], e)
    ensures TokenFollows(s.calls[c], e) && TokenFree(cfg, s, e.token)
    ensures Shape(s.calls[c]) && BytesOk(s.calls[c]) && IdentityOk(s, s.calls[c])
  {
    hide Act, Lawful, TokenFollows, TokenFree, Shape, BytesOk, IdentityOk, AnswerOk;
    ActIsLawful(cfg, s, c, s.calls[c], m);
    TokenFollowsHolding(cfg, s, c, s.calls[c], m);
  }

  lemma CarryLeaves(s: State, c: nat, e: Effect)
    requires c < |s.calls|
    ensures var t := Carry(s, c, e);
            && t.calls == s.calls[c := e.call] && t.acks == s.acks
            && (forall k :: Log(t, k) == Log(s, k) && End(t, k) == End(s, k))
  {
    CarryFields(s, c, e);
    hide Carry;
  }

  lemma KeyKept(cfg: Config, s: State, c: nat, e: Effect, k: Key)
    requires TokensCounted(cfg, s) && CallsOk(s) && AcksOk(s)
    requires c < |s.calls| && Lawful(s, c, s.calls[c], e) && Shape(s.calls[c]) && IdentityOk(s, s.calls[c])
    requires LogOk(s, k) && CommitsOk(s, k) && (Clean(s, k) ==> Ledger(s, k))
    ensures var t := Carry(s, c, e);
            LogOk(t, k) && CommitsOk(t, k) && (Clean(t, k) ==> Ledger(t, k))
  {
    CarryLeaves(s, c, e);
    hide *;
    var t := Carry(s, c, e);
    StepExtends(s, c, e);
    LogKept(s, t, k);
    CommitsKept(s, c, e, k);
    if Clean(t, k) {
      if e.change.Advance? && e.change.key == k {
        LedgerCommits(cfg, s, c, e);
      } else {
        LedgerSteps(s, c, e, k);
      }
    }
  }

  lemma AcksKept(s: State, c: nat, e: Effect)
    requires AcksOk(s) && c < |s.calls| && Lawful(s, c, s.calls[c], e)
    ensures AcksOk(Carry(s, c, e))
  {
    CarryLeaves(s, c, e);
    StepExtends(s, c, e);
    hide Carry, Lawful, Extends, Log, End, AckOk;
    var t := Carry(s, c, e);
    forall a | a in t.acks
      ensures AckOk(t, a)
    {
      AckKept(s, t, a);
    }
  }

  lemma StepKeeps(cfg: Config, s: State, c: nat, m: Move, e: Effect)
    requires Inv(cfg, s) && Possible(cfg, s, c, m, e)
    ensures Inv(cfg, Carry(s, c, e))
  {
    hide Possible, Carry, Lawful, LogOk, CommitsOk, CallsOk, TokensCounted, Clean, Ledger, AcksOk, FramesOk, Shape,
      BytesOk, IdentityOk, TokenFree, TokenFollows;
    PossibleFacts(cfg, s, c, m, e);
    CallsKept(cfg, s, c, m, e);
    TokensKept(cfg, s, c, e);
    FramesKept(s, c, e);
    AcksKept(s, c, e);
    forall k
      ensures var t := Carry(s, c, e);
              LogOk(t, k) && CommitsOk(t, k) && (Clean(t, k) ==> Ledger(t, k))
    {
      KeyKept(cfg, s, c, e, k);
    }
  }

  // --------------------------------------------------------------- the broker's steps

  /** The broker reads from a request what its sender meant. */
  lemma HandleReads(s: State, f: Frame) returns (b: RecordBatch)
    requires FrameOk(s.calls, f)
    ensures Handle(s, f) == Store(s, f, b)
    ensures b.records == ProtocolRecords(s.calls[f.call].job.messages)
    ensures Identity(b.producerId, b.producerEpoch, b.baseSequence) == s.calls[f.call].identity.value
  {
    hide ParseSet, Store;
    b := ParseSet(f.bytes).list[0];
  }

  lemma {:induction false} FindIsLogged(log: seq<Entry>, producerId: Int64, baseSequence: Int32)
    requires Find(log, producerId, baseSequence).Some?
    ensures Logged(log, producerId, baseSequence, Find(log, producerId, baseSequence).value)
  {
    var last := log[|log| - 1];
    if last.producerId == producerId && last.baseSequence == baseSequence {
      assert log[|log| - 1] == last;
    } else {
      FindIsLogged(log[..|log| - 1], producerId, baseSequence);
    }
  }

  lemma AppendFacts(s: State, f: Frame, b: RecordBatch)
    ensures var t := Append(s, f, b);
            && Log(t, f.key) == Log(s, f.key) + [Entry(f.call, b.producerId, b.baseSequence, b.records, End(s, f.key))]
            && End(t, f.key) == End(s, f.key) + |b.records|
            && (forall k :: k != f.key ==> Log(t, k) == Log(s, k) && End(t, k) == End(s, k))
  {}

  /** What a broker step leaves alone. */
  lemma StoreLeaves(s: State, f: Frame, b: RecordBatch)
    ensures var t := Store(s, f, b);
            && t.calls == s.calls && t.tokens == s.tokens && t.net == s.net && t.acked == s.acked
            && t.sequences == s.sequences && t.producerId == s.producerId && t.epoch == s.epoch
            && s.acks <= t.acks
            && (!Appends(s, f, b) ==> t.logs == s.logs && t.ends == s.ends)
  {
    hide Expected, Find, Log, End;
    if Appends(s, f, b) {
      hide Appends;
    } else {
      hide Append;
      assert Store(s, f, b).logs == s.logs;
    }
  }

  /** What a broker step changes. */
  lemma StoreFacts(s: State, f: Frame, b: RecordBatch)
    ensures var t := Store(s, f, b);
            && (forall k :: k != f.key ==> Log(t, k) == Log(s, k) && End(t, k) == End(s, k))
            && (Appends(s, f, b) ==> t == Append(s, f, b))
            && (!Appends(s, f, b) ==> Log(t, f.key) == Log(s, f.key) && End(t, f.key) == End(s, f.key))
  {
    StoreLeaves(s, f, b);
    AppendFacts(s, f, b);
    if Appends(s, f, b) {
      assert Store(s, f, b) == Append(s, f, b);
      hide Append, Appends, Store, Log, End;
    } else {
      hide Append, Appends, Store;
    }
  }

  /** A new acknowledgement names the offset of a batch with the sender's identity. */
  lemma NewAck(s: State, f: Frame, b: RecordBatch, a: Ack)
    requires FrameOk(s.calls, f)
    requires Identity(b.producerId, b.producerEpoch, b.baseSequence) == s.calls[f.call].identity.value
    requires a in Store(s, f, b).acks && a !in s.acks
    ensures AckOk(Store(s, f, b), a)
  {
    hide Carries, Expected, Find;
    var log, t := Log(s, f.key), Store(s, f, b);
    assert a.call == f.call;
    if Appends(s, f, b) {
      AppendFacts(s, f, b);
      var x := Log(t, f.key)[|log|];
      assert x.producerId == b.producerId && x.baseSequence == b.baseSequence && x.offset == a.offset;
    } else {
      FindIsLogged(log, b.producerId, b.baseSequence);
    }
  }

  lemma NewEntry(s: State, f: Frame, b: RecordBatch)
    requires FrameOk(s.calls, f) && LogOk(s, f.key)
    requires b.records == ProtocolRecords(s.calls[f.call].job.messages)
    requires Identity(b.producerId, b.producerEpoch, b.baseSequence) == s.calls[f.call].identity.value
    requires Appends(s, f, b)
    ensures LogOk(Append(s, f, b), f.key)
  {
    AppendFacts(s, f, b);
    var t, log := Append(s, f, b), Log(s, f.key);
    var entry := Entry(f.call, b.producerId, b.baseSequence, b.records, End(s, f.key));
    assert t.calls == s.calls && EntryOk(t.calls, f.key, entry);
    assert (log + [entry])[..|log|] == log;
    hide Carries, Append, Expected, Log, End, EntryOk, FrameOk;
  }

  /** On a clean key the broker appends only the batch of the call that is delivering, and only
      when no batch is undecided. */
  lemma LedgerReceives(cfg: Config, s: State, f: Frame, b: RecordBatch)
    requires TokensCounted(cfg, s) && CallsOk(s) && FrameOk(s.calls, f) && LogOk(s, f.key) && CommitsOk(s, f.key)
    requires b.records == ProtocolRecords(s.calls[f.call].job.messages)
    requires Identity(b.producerId, b.producerEpoch, b.baseSequence) == s.calls[f.call].identity.value
    requires Clean(s, f.key) && Ledger(s, f.key) && Appends(s, f, b)
    ensures CallsOf(Log(s, f.key)) == AckedCalls(s, f.key) && Active(s.calls, f.call, f.key)
  {
    var k := f.key;
    var acked := AckedCalls(s, k);
    SenderIsLive(s, f);
    NextIsTotal(s, f, b);
    Cast32Below(Total(s.calls, acked));
    assert Sequence(s, k) == Cast32(Total(s.calls, acked));
    hide TokensCounted, CallsOk, FrameOk, LogOk, CommitsOk, Clean, Appends, Log, AckedCalls, Total, Sequence,
      StoredCall, Active, Cast32;
    if CallsOf(Log(s, k)) != acked {
      LastIsMore(s, k);
    }
    if StoredCall(s.calls, f.call, k) {
      AckedIsBehind(s, k, f.call);
    }
  }

  /** On a clean key whoever has transmitted is acknowledged or still delivering. */
  lemma SenderIsLive(s: State, f: Frame)
    requires CallsOk(s) && FrameOk(s.calls, f) && Clean(s, f.key)
    ensures StoredCall(s.calls, f.call, f.key) || Active(s.calls, f.call, f.key)
    ensures Active(s.calls, f.call, f.key) ==>
              s.calls[f.call].identity.value.baseSequence == Sequence(s, f.key)
  {
    var call := s.calls[f.call];
    assert Shape(call) && IdentityOk(s, call) && CleanCall(call);
    hide CallsOk, Clean, Carries, Shape, CleanCall, Sequence;
    CallIsLive(call);
  }

  lemma CallIsLive(call: Call)
    requires Shape(call) && CleanCall(call) && call.job.Deliver? && call.frames > 0
    ensures StoredResult(call) || Delivering(call.phase)
  {
    hide Admitted;
  }

  lemma NextIsTotal(s: State, f: Frame, b: RecordBatch)
    requires CallsOk(s) && LogOk(s, f.key) && Clean(s, f.key) && FrameOk(s.calls, f) && Appends(s, f, b)
    requires Identity(b.producerId, b.producerEpoch, b.baseSequence) == s.calls[f.call].identity.value
    ensures b.baseSequence == Total(s.calls, CallsOf(Log(s, f.key)))
  {
    hide Log, Shape, BytesOk, AnswerOk, Carries, Total, Expected, AckedCalls;
    OneProducer(s, f.key);
    ExpectedIsTotal(s.calls, f.key, Log(s, f.key), s.producerId);
    assert IdentityOk(s, s.calls[f.call]) && CleanCall(s.calls[f.call]);
  }

  /** An acknowledged batch starts below the sum of the acknowledged ones. */
  lemma AckedIsBehind(s: State, k: Key, c: nat)
    requires CallsOk(s) && CommitsOk(s, k) && StoredCall(s.calls, c, k)
    ensures s.calls[c].identity.Some?
    ensures s.calls[c].identity.value.baseSequence < Total(s.calls, AckedCalls(s, k))
  {
    var acked := AckedCalls(s, k);
    var i :| 0 <= i < |acked| && acked[i] == c;
    assert Shape(s.calls[c]);
    hide Chain, Total, AckedCalls, BytesOk, Sequence;
    ChainAt(s.calls, k, acked, i);
    Cast32Below(Total(s.calls, acked[..i]));
    TotalGrows(s.calls, acked, i);
  }

  lemma LastIsMore(s: State, k: Key)
    requires CallsOk(s) && LogOk(s, k) && Ledger(s, k) && CallsOf(Log(s, k)) != AckedCalls(s, k)
    ensures Total(s.calls, CallsOf(Log(s, k))) > Total(s.calls, AckedCalls(s, k))
  {
    hide AckedCalls, Log, Contiguous, Placed, BytesOk, Carries;
    var log := Log(s, k);
    assert EntryOk(s.calls, k, log[|log| - 1]);
    EntryIsNotEmpty(s, k, log[|log| - 1]);
  }

  /** A request the broker has not appended changes the acknowledgements at most. */
  lemma HandleKeeps(cfg: Config, s: State, f: Frame)
    requires Inv(cfg, s) && FrameOk(s.calls, f)
    ensures Inv(cfg, Handle(s, f))
  {
    var b := HandleReads(s, f);
    var t := Store(s, f, b);
    StoreFacts(s, f, b);
    hide Handle, Store, Append, Appends, FrameOk, LogOk, CommitsOk, Clean, Ledger, Log, End;
    StoreKeepsCalls(cfg, s, f, b);
    StoreKeepsAcks(s, f, b);
    forall k
      ensures LogOk(t, k) && CommitsOk(t, k) && (Clean(t, k) ==> Ledger(t, k))
    {
      StoreKeepsKey(cfg, s, f, b, k);
    }
  }

  lemma StoreKeepsCalls(cfg: Config, s: State, f: Frame, b: RecordBatch)
    requires TokensCounted(cfg, s) && CallsOk(s) && FramesOk(s)
    ensures var t := Store(s, f, b); TokensCounted(cfg, t) && CallsOk(t) && FramesOk(t)
  {
    StoreLeaves(s, f, b);
    hide Store, Holders, Shape, BytesOk, Log, End, FrameOk;
    var t := Store(s, f, b);
    assert forall r :: Tokens(t, r) == Tokens(s, r);
    forall c | 0 <= c < |t.calls|
      ensures Shape(t.calls[c]) && BytesOk(t.calls[c]) && IdentityOk(t, t.calls[c]) && AnswerOk(t.acks, c, t.calls[c])
    {
      assert IdentityOk(s, s.calls[c]) && AnswerOk(s.acks, c, s.calls[c]);
    }
  }

  lemma StoreKeepsAcks(s: State, f: Frame, b: RecordBatch)
    requires AcksOk(s) && FrameOk(s.calls, f)
    requires Identity(b.producerId, b.producerEpoch, b.baseSequence) == s.calls[f.call].identity.value
    ensures AcksOk(Store(s, f, b))
  {
    StoreLeaves(s, f, b);
    StoreFacts(s, f, b);
    AppendFacts(s, f, b);
    hide Store, Append, FrameOk, AckOk, Log, End, Appends;
    var t := Store(s, f, b);
    assert Extends(s.calls, t.calls);
    assert forall k :: Log(s, k) <= Log(t, k);
    forall a | a in t.acks
      ensures AckOk(t, a)
    {
      if a in s.acks {
        AckKept(s, t, a);
      } else {
        NewAck(s, f, b, a);
      }
    }
  }

  lemma StoreKeepsKey(cfg: Config, s: State, f: Frame, b: RecordBatch, k: Key)
    requires TokensCounted(cfg, s) && CallsOk(s) && FrameOk(s.calls, f)
    requires b.records == ProtocolRecords(s.calls[f.call].job.messages)
    requires Identity(b.producerId, b.producerEpoch, b.baseSequence) == s.calls[f.call].identity.value
    requires LogOk(s, k) && CommitsOk(s, k) && (Clean(s, k) ==> Ledger(s, k))
    ensures var t := Store(s, f, b);
            LogOk(t, k) && CommitsOk(t, k) && (Clean(t, k) ==> Ledger(t, k))
  {
    StoreLeaves(s, f, b);
    StoreFacts(s, f, b);
    var t := Store(s, f, b);
    hide Store, Append, Appends, FrameOk, Log, End, LogOk, AckedCalls, CommitsOk, Clean, TokensCounted, CallsOk;
    SameHistory(s, t, k);
    if k == f.key && Appends(s, f, b) {
      NewEntry(s, f, b);
      AppendFacts(s, f, b);
      if Clean(t, k) {
        LedgerReceives(cfg, s, f, b);
        assert CallsOf(Log(t, k)) == CallsOf(Log(s, k)) + [f.call];
      }
    } else {
      LogKept(s, t, k);
    }
  }

  lemma SameHistory(s: State, t: State, k: Key)
    requires t.calls == s.calls && t.acked == s.acked && t.sequences == s.sequences
    ensures AckedCalls(t, k) == AckedCalls(s, k) && Extends(s.calls, t.calls)
    ensures CommitsOk(s, k) ==> CommitsOk(t, k)
    ensures Clean(t, k) ==> Clean(s, k)
    ensures Log(t, k) == Log(s, k) && Ledger(s, k) ==> Ledger(t, k)
  {
    hide Chain, Total, CleanCall, Log;
  }

  // ------------------------------------------------------------------- the whole run

  lemma BeginKeeps(cfg: Config, s: State, job: Job)
    requires Inv(cfg, s) && Admitted(job)
    ensures Inv(cfg, Begin(s, job))
  {
    var t := Begin(s, job);
    assert t.calls == s.calls + [Call(job, First(job), None, 0)];
    assert t.acks == s.acks && t.logs == s.logs && t.ends == s.ends && t.net == s.net;
    assert Extends(s.calls, t.calls);
    TokensKeptByStart(cfg, s, job);
    assert FramesOk(t) by {
      hide FrameOk, Extends;
      forall i | 0 <= i < |t.net| ensures FrameOk(t.calls, t.net[i]) {
        FrameExtends(s.calls, t.calls, s.net[i]);
      }
    }
    BeginKeepsCalls(s, job);
    assert forall k :: Log(t, k) == Log(s, k) && End(t, k) == End(s, k);
    assert AcksOk(t) by {
      hide AckOk, Extends, Log;
      forall a | a in t.acks ensures AckOk(t, a) { AckKept(s, t, a); }
    }
    hide Begin, LogOk, CommitsOk, Clean, Ledger, Log, End, Extends;
    forall k
      ensures LogOk(t, k) && CommitsOk(t, k) && (Clean(t, k) ==> Ledger(t, k))
    {
      LogKept(s, t, k);
      BeginKeepsKey(s, job, k);
    }
  }

  lemma BeginKeepsCalls(s: State, job: Job)
    requires CallsOk(s) && Admitted(job)
    ensures CallsOk(Begin(s, job))
  {
    hide Sized31, Carries;
    var t := Begin(s, job);
    forall c | 0 <= c < |t.calls|
      ensures Shape(t.calls[c]) && BytesOk(t.calls[c]) && IdentityOk(t, t.calls[c]) && AnswerOk(t.acks, c, t.calls[c])
    {
      if c < |s.calls| {
        hide Shape, BytesOk, AnswerOk;
        assert t.calls[c] == s.calls[c];
        assert IdentityOk(s, s.calls[c]) && AnswerOk(s.acks, c, s.calls[c]);
      }
    }
  }

  lemma BeginKeepsKey(s: State, job: Job, k: Key)
    requires CommitsOk(s, k) && (Clean(s, k) ==> Ledger(s, k))
    ensures var t := Begin(s, job);
            CommitsOk(t, k) && (Clean(t, k) ==> Ledger(t, k))
  {
    var t := Begin(s, job);
    var list := AckedCalls(s, k);
    assert t.calls == s.calls + [Call(job, First(job), None, 0)] && Extends(s.calls, t.calls);
    assert AckedCalls(t, k) == list && Sequence(t, k) == Sequence(s, k) && Log(t, k) == Log(s, k);
    ChainExtends(s.calls, t.calls, k, list);
    ChainValid(s.calls, k, list);
    TotalExtends(s.calls, t.calls, list);
    if Clean(t, k) {
      CleanBefore(s, t, k);
    }
    hide Begin, Extends, Chain, Total, Log, AckedCalls, Sequence, Clean;
    forall c | StoredCall(t.calls, c, k)
      ensures StoredCall(s.calls, c, k)
    {}
  }

  lemma ForeignKeeps(cfg: Config, s: State, k: Key, n: nat)
    requires Inv(cfg, s)
    ensures Inv(cfg, s.(ends := s.ends[k := End(s, k) + n]))
  {
    var t := s.(ends := s.ends[k := End(s, k) + n]);
    hide Holders, Shape, BytesOk, FrameOk, EntryOk, Contiguous, Placed, Chain, Total, CleanCall;
    assert forall r :: Tokens(t, r) == Tokens(s, r);
    assert forall q :: Log(t, q) == Log(s, q) && AckedCalls(t, q) == AckedCalls(s, q) && Sequence(t, q) == Sequence(s, q);
    assert forall c :: 0 <= c < |s.calls| ==> IdentityOk(s, s.calls[c]);
    assert forall a :: a in s.acks ==> AckOk(s, a);
    forall q
      ensures LogOk(t, q) && CommitsOk(t, q) && (Clean(t, q) ==> Ledger(t, q))
    {
      assert Extends(s.calls, t.calls);
      LogKept(s, t, q);
      assert CommitsOk(s, q);
      assert Clean(t, q) ==> Clean(s, q);
    }
  }

  lemma InitialHolds(cfg: Config, producerId: Int64, epoch: Int16)
    ensures Inv(cfg, Initial(producerId, epoch))
  {
    var s := Initial(producerId, epoch);
    forall k
      ensures LogOk(s, k) && CommitsOk(s, k) && Ledger(s, k)
    {
      assert Log(s, k) == [] && AckedCalls(s, k) == [];
      assert Total(s.calls, []) == 0;
    }
  }

  lemma ApplyKeeps(cfg: Config, s: State, l: Label)
    requires Inv(cfg, s) && Apply(cfg, s, l).Some?
    ensures Inv(cfg, Apply(cfg, s, l).value)
  {
    match l {
      case Start(job) =>
        hide Inv, Begin;
        BeginKeeps(cfg, s, job);
      case Step(c, m) =>
        hide Inv, Act, Carry;
        var e := Act(cfg, s, c, s.calls[c], m).value;
        assert Possible(cfg, s, c, m, e);
        StepKeeps(cfg, s, c, m, e);
      case Receive(i) =>
        assert FrameOk(s.calls, s.net[i]);
        hide Inv, Handle;
        HandleKeeps(cfg, s, s.net[i]);
      case Foreign(k, n) =>
        hide Inv;
        ForeignKeeps(cfg, s, k, n);
    }
  }

  /** Every state of every run satisfies the invariant. */
  lemma {:induction false} RunKeeps(cfg: Config, producerId: Int64, epoch: Int16, labels: seq<Label>)
    requires Run(cfg, Initial(producerId, epoch), labels).Some?
    ensures Inv(cfg, Run(cfg, Initial(producerId, epoch), labels).value)
  {
    hide Inv, Apply;
    if labels == [] {
      InitialHolds(cfg, producerId, epoch);
    } else {
      var before := Run(cfg, Initial(producerId, epoch), labels[..|labels| - 1]).value;
      RunKeeps(cfg, producerId, epoch, labels[..|labels| - 1]);
      ApplyKeeps(cfg, before, labels[|labels| - 1]);
    }
  }
}
