/** What can happen on a key once a call has failed there after transmitting: the next batch takes
    the same base sequence, and the broker acknowledges it for the batch it already has. */
module DeliveryLoss {
  import opened Wrappers
  import opened Wire
  import opened RecordBatches
  import opened RecordBatchSets
  import opened ProducerBatches
  import opened Delivery
  import opened DeliveryInvariant
  import opened DeliveryLedger
  import opened DeliveryRuns
  import opened DeliverySafety
  import opened DeliveryOutcomes
  import opened Producer

  /** One more step of call `c`. */
  lemma Go(cfg: Config, s: State, c: nat, m: Move, e: Effect) returns (t: State)
    requires Reachable(cfg, s) && Possible(cfg, s, c, m, e) && !e.change.SetIdentity?
    ensures Reachable(cfg, t) && t.calls == s.calls[c := e.call] && t.tokens == MoveToken(s, e.token)
    ensures Apply(cfg, s, Step(c, m)) == Some(t)
    ensures t.acks == s.acks && t.logs == s.logs && t.ends == s.ends
    ensures t.net == if e.change.Emit? then s.net + [e.change.frame] else s.net
    ensures t.producerId == s.producerId && t.epoch == s.epoch
    ensures !e.change.Advance? ==> t.sequences == s.sequences && t.acked == s.acked
  {
    t := Carry(s, c, e);
    CarryFields(s, c, e);
    Stepped(cfg, s, c, m, e);
    hide Reachable, Possible, Act, MoveToken;
  }

  /** A producer that knows its id, with no call on the key and room for one more request to the
      endpoint. */
  predicate Quiet(cfg: Config, s: State, k: Key, e: Endpoint) {
    s.producerId >= 0 && Tokens(s, OrderLock(k)) == 0 && Tokens(s, Slot(e)) < cfg.maxInFlight
  }

  predicate Deliverable(messages: seq<Message>) {
    messages != [] && Sized31(messages) && Accepted(messages)
  }

  /** What the next call on the key is going to send under. */
  function NextIdentity(s: State, k: Key): Identity {
    Identity(s.producerId, s.epoch, Sequence(s, k))
  }

  function AttemptBytes(s: State, k: Key, messages: seq<Message>): Bytes {
    SetBytes([ProducerBatch(messages, NextIdentity(s, k), 0, 0)])
  }

  /** A new call has the ordering lock of the key ... */
  lemma Ordered(cfg: Config, s: State, k: Key, e: Endpoint, messages: seq<Message>) returns (t: State)
    requires Reachable(cfg, s) && Quiet(cfg, s, k, e) && Deliverable(messages)
    ensures Reachable(cfg, t) && t.net == s.net && t.logs == s.logs && t.ends == s.ends && t.acks == s.acks
    ensures t.producerId == s.producerId && t.epoch == s.epoch && t.sequences == s.sequences && t.acked == s.acked
    ensures t.calls == s.calls + [Call(Deliver(k, messages), CheckIdentity, None, 0)]
    ensures t.tokens == s.tokens[OrderLock(k) := 1]
  {
    var c, job := |s.calls|, Deliver(k, messages);
    StartIs(cfg, s, job);
    hide Apply, Reachable, Act, TokenFree, Possible;
    OneMore(cfg, s, Start(job));
    var s1 := s.(calls := s.calls + [Call(job, WaitOrder, None, 0)]);
    ActOrder(cfg, s1, c);
    t := Go(cfg, s1, c, Proceed, Effect(s1.calls[c].(phase := CheckIdentity), Take(OrderLock(k)), Nothing));
  }

  /** ... has read its identity ... */
  lemma Prepared(cfg: Config, s: State, k: Key, e: Endpoint, messages: seq<Message>) returns (t: State)
    requires Reachable(cfg, s) && Quiet(cfg, s, k, e) && Deliverable(messages)
    ensures Reachable(cfg, t) && t.net == s.net && t.logs == s.logs && t.ends == s.ends && t.acks == s.acks
    ensures t.producerId == s.producerId && t.epoch == s.epoch && t.sequences == s.sequences && t.acked == s.acked
    ensures t.calls == s.calls + [Call(Deliver(k, messages), Route(1), Some(NextIdentity(s, k)), 0)]
    ensures t.tokens == s.tokens[OrderLock(k) := 1]
  {
    hide Reachable, Act, TokenFree, Possible, Deliverable;
    var c := |s.calls|;
    var s1 := Ordered(cfg, s, k, e, messages);
    ActCheck(cfg, s1, c);
    var s2 := Go(cfg, s1, c, Proceed, Effect(s1.calls[c].(phase := TakeIdentity), Keep, Nothing));
    ActTake(cfg, s2, c);
    assert Sequence(s2, k) == Sequence(s, k);
    hide Sequence;
    var id := NextIdentity(s, k);
    t := Go(cfg, s2, c, Proceed, Effect(s2.calls[c].(phase := Route(1), identity := Some(id)), Keep, Nothing));
  }

  lemma StartIs(cfg: Config, s: State, job: Job)
    requires job.Deliver? && Admitted(job)
    ensures Apply(cfg, s, Start(job)) == Some(s.(calls := s.calls + [Call(job, WaitOrder, None, 0)]))
    ensures Begin(s, job) == s.(calls := s.calls + [Call(job, WaitOrder, None, 0)])
  {}

  /** ... and has transmitted its first request. */
  lemma Launched(cfg: Config, s: State, k: Key, e: Endpoint, messages: seq<Message>) returns (t: State)
    requires ValidConfig(cfg) && cfg.framesPerSend >= 1
    requires Reachable(cfg, s) && Quiet(cfg, s, k, e) && Deliverable(messages)
    ensures Reachable(cfg, t) && t.logs == s.logs && t.ends == s.ends && t.acks == s.acks && t.acked == s.acked
    ensures t.producerId == s.producerId && t.epoch == s.epoch && t.sequences == s.sequences
    ensures var c, bytes := |s.calls|, AttemptBytes(s, k, messages);
            && t.calls == s.calls + [Call(Deliver(k, messages), Send(1, e, bytes, cfg.framesPerSend - 1),
                                          Some(NextIdentity(s, k)), 1)]
            && t.net == s.net + [Frame(c, 1, k, bytes)]
    ensures t.tokens == s.tokens[OrderLock(k) := 1][Slot(e) := Tokens(s, Slot(e)) + 1]
  {
    hide Reachable, Act, TokenFree, Sized31, Accepted, Possible, SetBytes, ProducerBatch, Sequence;
    var c, bytes := |s.calls|, AttemptBytes(s, k, messages);
    var s1 := Prepared(cfg, s, k, e, messages);
    ActRoute(cfg, s1, c, e, 0, 0);
    var s2 := Go(cfg, s1, c, Routed(e, 0, 0), Effect(s1.calls[c].(phase := WaitSlot(1, e, bytes)), Keep, Nothing));
    assert Tokens(s2, Slot(e)) == Tokens(s, Slot(e));
    ActSlot(cfg, s2, c);
    var s3 := Go(cfg, s2, c, Proceed,
                 Effect(s2.calls[c].(phase := Send(1, e, bytes, cfg.framesPerSend)), Take(Slot(e)), Nothing));
    ActTransmit(cfg, s3, c);
    var p := Send(1, e, bytes, cfg.framesPerSend - 1);
    t := Go(cfg, s3, c, Transmit, Effect(s3.calls[c].(phase := p, frames := 1), Keep, Emit(Frame(c, 1, k, bytes))));
  }

  /** Call `c` is inside its first request on the key, to this endpoint. */
  predicate InSend(s: State, c: nat, k: Key, e: Endpoint) {
    && c < |s.calls| && s.calls[c].job.Deliver? && s.calls[c].job.key == k
    && s.calls[c].phase.Send? && s.calls[c].phase.attempt == 1 && s.calls[c].phase.endpoint == e
    && Tokens(s, OrderLock(k)) == 1 && Tokens(s, Slot(e)) >= 1
  }

  /** The answer comes, and the slot is given back. */
  lemma AnsweredWith(cfg: Config, s: State, c: nat, k: Key, e: Endpoint, answer: Answer) returns (t: State)
    requires Reachable(cfg, s) && InSend(s, c, k, e)
    requires answer.Acked? ==> Ack(c, 1, answer.offset) in s.acks
    ensures Reachable(cfg, t) && t.logs == s.logs && t.acks == s.acks && t.net == s.net && t.acked == s.acked
    ensures t.producerId == s.producerId && t.epoch == s.epoch && t.sequences == s.sequences
    ensures t.calls == s.calls[c := s.calls[c].(phase := AfterAnswer(cfg, 1, answer))]
    ensures Tokens(t, OrderLock(k)) == 1 && Tokens(t, Slot(e)) == Tokens(s, Slot(e)) - 1
  {
    hide Reachable, Act, TokenFree, Possible, AfterAnswer;
    ActAnswer(cfg, s, c, answer);
    var s1 := Go(cfg, s, c, Answered(answer), Effect(s.calls[c].(phase := LeaveSlot(1, e, answer)), Keep, Nothing));
    ActRelease(cfg, s1, c);
    t := Go(cfg, s1, c, Proceed,
            Effect(s1.calls[c].(phase := AfterAnswer(cfg, 1, answer)), Give(Slot(e)), Nothing));
  }

  /** The call gives back the ordering lock and returns. */
  lemma Returns(cfg: Config, s: State, c: nat, k: Key) returns (t: State)
    requires Reachable(cfg, s) && c < |s.calls| && s.calls[c].job.Deliver? && s.calls[c].job.key == k
    requires s.calls[c].phase.Leave? && Tokens(s, OrderLock(k)) == 1
    ensures Reachable(cfg, t) && t.logs == s.logs && t.net == s.net
    ensures t.producerId == s.producerId && t.epoch == s.epoch && t.sequences == s.sequences
    ensures t.calls == s.calls[c := s.calls[c].(phase := Done(s.calls[c].phase.result))]
    ensures Tokens(t, OrderLock(k)) == 0 && forall e :: Tokens(t, Slot(e)) == Tokens(s, Slot(e))
  {
    hide Reachable, Act, TokenFree, Possible;
    ActLeave(cfg, s, c);
    t := Go(cfg, s, c, Proceed, Effect(s.calls[c].(phase := Done(s.calls[c].phase.result)), Give(OrderLock(k)), Nothing));
  }

  /** The broker handles a request. */
  lemma Arrives(cfg: Config, s: State, i: nat) returns (t: State, b: RecordBatch)
    requires Reachable(cfg, s) && i < |s.net|
    ensures var f := s.net[i];
            && f.call < |s.calls| && s.calls[f.call].job.Deliver? && s.calls[f.call].identity.Some?
            && Identity(b.producerId, b.producerEpoch, b.baseSequence) == s.calls[f.call].identity.value
            && |b.records| == |s.calls[f.call].job.messages|
            && Reachable(cfg, t) && t == Store(s, f, b)
  {
    hide *;
    SentFrame(cfg, s, i);
    ReceiveIs(cfg, s, i);
    OneMore(cfg, s, Receive(i));
    b := HandleReads(s, s.net[i]);
    t := Handle(s, s.net[i]);
  }

  lemma ReceiveIs(cfg: Config, s: State, i: nat)
    requires i < |s.net|
    ensures Apply(cfg, s, Receive(i)) == Some(Handle(s, s.net[i]))
  {
    hide Handle;
  }

  lemma SentFrame(cfg: Config, s: State, i: nat)
    requires Reachable(cfg, s) && i < |s.net|
    ensures var f := s.net[i];
            && FrameOk(s.calls, f) && f.call < |s.calls| && s.calls[f.call].job.Deliver?
            && s.calls[f.call].identity.Some?
  {
    ReachableHolds(cfg, s);
    hide Reachable;
    InvCalls(cfg, s);
    hide Inv;
    FrameAt(s, i);
    hide Carries, FramesOk, CallsOk, AcksOk, TokensCounted;
  }

  // ------------------------------------------------------------------------ the loss

  /** The partition holds a batch under the identity that the next call on the key will send under:
      a batch of a call that has failed, if the key is quiet, and the counter has not moved since. */
  predicate Stale(s: State, k: Key, j: nat) {
    j < |Log(s, k)| && HasIdentity(Log(s, k)[j], NextIdentity(s, k))
  }

  /** A batch whose identity the log holds already is acknowledged at the offset of that batch, and
      not appended. */
  lemma KnownBatch(s: State, f: Frame, b: RecordBatch, j: nat)
    requires CallsOk(s) && LogOk(s, f.key) && b.producerId >= 0 && j < |Log(s, f.key)|
    requires HasIdentity(Log(s, f.key)[j], Identity(b.producerId, b.producerEpoch, b.baseSequence))
    ensures var t := Store(s, f, b);
            && t.logs == s.logs && t.ends == s.ends && Ack(f.call, f.attempt, Log(s, f.key)[j].offset) in t.acks
            && t.calls == s.calls && t.tokens == s.tokens && t.net == s.net && t.acked == s.acked
            && t.sequences == s.sequences && t.producerId == s.producerId && t.epoch == s.epoch
  {
    var log := Log(s, f.key);
    KnownIsBehind(s, f, b, j);
    FindKnown(s, f.key, log, Identity(b.producerId, b.producerEpoch, b.baseSequence), j);
    hide Log, End, Expected, Find, LogOk, CallsOk;
  }

  lemma KnownIsBehind(s: State, f: Frame, b: RecordBatch, j: nat)
    requires CallsOk(s) && LogOk(s, f.key) && b.producerId >= 0 && j < |Log(s, f.key)|
    requires HasIdentity(Log(s, f.key)[j], Identity(b.producerId, b.producerEpoch, b.baseSequence))
    ensures !Appends(s, f, b)
  {
    var log := Log(s, f.key);
    hide Log, Expected, CallsOk, Contiguous, Placed;
    BaseIsExpected(log, j);
    ExpectedGrows(log, j, b.producerId);
    assert EntryOk(s.calls, f.key, log[j]);
    EntryIsNotEmpty(s, f.key, log[j]);
  }

  /** The broker finds that very batch. */
  lemma FindKnown(s: State, k: Key, log: seq<Entry>, id: Identity, j: nat)
    requires CallsOk(s) && LogOk(s, k) && log == Log(s, k) && id.producerId >= 0
    requires j < |log| && HasIdentity(log[j], id)
    ensures Find(log, id.producerId, id.baseSequence) == Some(log[j].offset)
  {
    hide CallsOk, LogOk, Log;
    FindsSome(log, id, j);
    FindIsLogged(log, id.producerId, id.baseSequence);
    var offset := Find(log, id.producerId, id.baseSequence).value;
    var i :| 0 <= i < |log| && log[i].producerId == id.producerId && log[i].baseSequence == id.baseSequence
             && log[i].offset == offset;
    IdentityIsUnique(s, k, i, j, id);
  }

  lemma {:induction false} FindsSome(log: seq<Entry>, id: Identity, j: nat)
    requires j < |log| && HasIdentity(log[j], id)
    ensures Find(log, id.producerId, id.baseSequence).Some?
  {
    if j < |log| - 1 {
      FindsSome(log[..|log| - 1], id, j);
    }
  }

  /** The next call's request is answered with the offset of the batch that is there already. */
  lemma NextIsAcked(cfg: Config, s: State, k: Key, e: Endpoint, messages: seq<Message>, j: nat) returns (t: State)
    requires ValidConfig(cfg) && cfg.framesPerSend >= 1 && Deliverable(messages)
    requires Reachable(cfg, s) && Quiet(cfg, s, k, e) && Stale(s, k, j)
    ensures Reachable(cfg, t) && t.logs == s.logs && InSend(t, |s.calls|, k, e)
    ensures Ack(|s.calls|, 1, Log(s, k)[j].offset) in t.acks
    ensures |t.calls| == |s.calls| + 1 && t.calls[..|s.calls|] == s.calls
    ensures t.calls[|s.calls|].job == Deliver(k, messages)
  {
    hide Reachable, Deliverable, AttemptBytes, CallsOk, LogOk, Sequence;
    var s1 := Launched(cfg, s, k, e, messages);
    assert Log(s1, k) == Log(s, k);
    LogIsOk(cfg, s1, k);
    var i := |s1.net| - 1;
    var b;
    t, b := Arrives(cfg, s1, i);
    KnownBatch(s1, s1.net[i], b, j);
    hide Store;
  }

  lemma LogIsOk(cfg: Config, s: State, k: Key)
    requires Reachable(cfg, s)
    ensures CallsOk(s) && LogOk(s, k)
  {
    ReachableHolds(cfg, s);
    hide Reachable;
  }

  /** An acknowledged call commits its sequence numbers and returns. */
  lemma AckedReturns(cfg: Config, s: State, c: nat, k: Key, e: Endpoint, offset: nat) returns (t: State)
    requires Reachable(cfg, s) && InSend(s, c, k, e) && Ack(c, 1, offset) in s.acks
    ensures Reachable(cfg, t) && t.logs == s.logs
    ensures t.calls == s.calls[c := s.calls[c].(phase := Done(Stored(offset)))]
  {
    hide Reachable, Possible;
    var s1 := AnsweredWith(cfg, s, c, k, e, Acked(offset));
    ActCommit(cfg, s1, c);
    var f := Effect(s1.calls[c].(phase := Leave(Stored(offset))), Keep, Advance(k, |s1.calls[c].job.messages|));
    var s2 := Go(cfg, s1, c, Proceed, f);
    TokensSame(s1, s2, k);
    t := Returns(cfg, s2, c, k);
  }

  lemma TokensSame(s: State, t: State, k: Key)
    requires t.tokens == s.tokens
    ensures Tokens(t, OrderLock(k)) == Tokens(s, OrderLock(k))
  {}

  /** Why the guarantees end where a call has failed after transmitting: from every reachable state in
      which the key is quiet and the partition holds a batch under the identity of the next call, that
      call can return with the assurance that its records were stored, while nothing is appended. */
  lemma AcknowledgedButLost(cfg: Config, s: State, k: Key, e: Endpoint, messages: seq<Message>, j: nat) returns (t: State)
    requires ValidConfig(cfg) && cfg.framesPerSend >= 1 && Deliverable(messages)
    requires Reachable(cfg, s) && Quiet(cfg, s, k, e) && Stale(s, k, j)
    ensures Reachable(cfg, t) && |t.calls| == |s.calls| + 1 && t.calls[..|s.calls|] == s.calls
    ensures t.calls[|s.calls|].job == Deliver(k, messages)
    ensures t.calls[|s.calls|].phase == Done(Stored(Log(s, k)[j].offset))
    ensures Log(t, k) == Log(s, k) && !Kept(t, |s.calls|, k, Log(s, k)[j].offset)
  {
    var offset := Log(s, k)[j].offset;
    hide Reachable, Deliverable, Quiet;
    var s1 := NextIsAcked(cfg, s, k, e, messages, j);
    t := AckedReturns(cfg, s1, |s.calls|, k, e, offset);
    assert Log(t, k) == Log(s, k);
    LogIsOk(cfg, s, k);
    hide Log;
    forall i | 0 <= i < |Log(t, k)|
      ensures !KeptAt(t, |s.calls|, Log(t, k)[i], offset)
    {
      assert EntryOk(s.calls, k, Log(s, k)[i]);
    }
  }

  /** If the failed call's request is still on its way, and the broker expects its base sequence, it
      arrives first: then the partition holds the batch. */
  lemma DelayedIsStale(cfg: Config, s: State, k: Key, e: Endpoint, i: nat) returns (t: State, j: nat)
    requires Reachable(cfg, s) && Quiet(cfg, s, k, e) && i < |s.net| && s.net[i].key == k
    requires s.net[i].call < |s.calls| && s.calls[s.net[i].call].identity == Some(NextIdentity(s, k))
    requires Expected(Log(s, k), s.producerId) == Sequence(s, k)
    ensures Reachable(cfg, t) && Quiet(cfg, t, k, e) && Stale(t, k, j) && t.calls == s.calls
  {
    hide Reachable, Sequence, Expected, Log;
    var b;
    t, b := Arrives(cfg, s, i);
    StoreLeaves(s, s.net[i], b);
    StoreFacts(s, s.net[i], b);
    AppendFacts(s, s.net[i], b);
    hide Store, Append, End;
    j := |Log(s, k)|;
    SameIdentity(s, t, k);
  }

  lemma SameIdentity(s: State, t: State, k: Key)
    requires t.producerId == s.producerId && t.epoch == s.epoch && t.sequences == s.sequences
    ensures NextIdentity(t, k) == NextIdentity(s, k)
  {}

  // ------------------------------------------------------------- such states are reached

  /** The first call of a run is appended ... */
  lemma FirstAppended(cfg: Config, id: Int64, k: Key, e: Endpoint, messages: seq<Message>) returns (t: State)
    requires ValidConfig(cfg) && cfg.framesPerSend >= 1 && Deliverable(messages) && id >= 0
    ensures Reachable(cfg, t) && InSend(t, 0, k, e) && t.producerId == id && t.sequences == map[]
    ensures Stale(t, k, 0) && Tokens(t, Slot(e)) == 1 && |t.calls| == 1 && t.calls[0].job == Deliver(k, messages)
  {
    var s := Initial(id, 0);
    Starts(cfg, s);
    hide Reachable, Sized31, Accepted, AttemptBytes;
    var s1 := Launched(cfg, s, k, e, messages);
    var b;
    t, b := Arrives(cfg, s1, 0);
    StoreLeaves(s1, s1.net[0], b);
    StoreFacts(s1, s1.net[0], b);
    AppendFacts(s1, s1.net[0], b);
    assert Log(s1, k) == [] && End(s1, k) == 0;
    assert Appends(s1, s1.net[0], b);
    hide Store, Append, Appends;
    assert Log(t, k) == [Entry(0, b.producerId, b.baseSequence, b.records, 0)];
  }

  lemma Starts(cfg: Config, s: State)
    requires s == Initial(s.producerId, s.epoch)
    ensures Reachable(cfg, s)
  {
    assert Run(cfg, Initial(s.producerId, s.epoch), []) == Some(s);
  }

  /** ... but fails: then its key is quiet, and its batch stands in the partition under the identity of
      the next call. */
  lemma StaleIsReachable(cfg: Config, id: Int64, k: Key, e: Endpoint, messages: seq<Message>) returns (t: State)
    requires ValidConfig(cfg) && cfg.framesPerSend >= 1 && Deliverable(messages) && id >= 0
    ensures Reachable(cfg, t) && Quiet(cfg, t, k, e) && Stale(t, k, 0)
    ensures |t.calls| == 1 && t.calls[0].job == Deliver(k, messages) && t.calls[0].phase == Done(Failed)
  {
    hide Reachable, Deliverable;
    var s1 := FirstAppended(cfg, id, k, e, messages);
    var s2 := AnsweredWith(cfg, s1, 0, k, e, Error(Transport, true));
    t := Returns(cfg, s2, 0, k);
    assert Log(t, k) == Log(s1, k) && Sequence(t, k) == Sequence(s1, k);
  }
}
