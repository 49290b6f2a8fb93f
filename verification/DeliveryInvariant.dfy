/** What every reachable state of the delivery protocol satisfies, and why every step keeps it. */
module DeliveryInvariant {
  import opened Wrappers
  import opened Wire
  import opened RecordBatches
  import opened RecordBatchSets
  import opened ProducerBatches
  import opened Delivery

  // ------------------------------------------------------------ locks and semaphores

  predicate Holds(call: Call, r: Resource) {
    match r
    case OrderLock(k) => call.job.Deliver? && call.job.key == k && !call.phase.WaitOrder? && !call.phase.Done?
    case InitLock => call.phase.Recheck? || call.phase.SendInit? || call.phase.LeaveInit?
    case Slot(e) =>
      (call.phase.Send? && call.phase.endpoint == e) || (call.phase.LeaveSlot? && call.phase.endpoint == e)
  }

  function Holders(calls: seq<Call>, r: Resource): nat {
    if calls == [] then 0
    else Holders(calls[..|calls| - 1], r) + (if Holds(calls[|calls| - 1], r) then 1 else 0)
  }

  /** The length of every channel is the number of calls that hold one of its places. */
  ghost predicate TokensCounted(cfg: Config, s: State) {
    forall r :: Tokens(s, r) == Holders(s.calls, r) <= Capacity(cfg, r)
  }

  lemma {:induction false} HoldersUpdate(calls: seq<Call>, c: nat, call: Call, r: Resource)
    requires c < |calls|
    ensures Holders(calls[c := call], r) + (if Holds(calls[c], r) then 1 else 0)
         == Holders(calls, r) + (if Holds(call, r) then 1 else 0)
  {
    hide Holds;
    var n := |calls| - 1;
    if c == n {
      assert calls[c := call][..n] == calls[..n];
    } else {
      assert calls[c := call][..n] == calls[..n][c := call];
      HoldersUpdate(calls[..n], c, call, r);
    }
  }

  lemma {:induction false} HolderCounts(calls: seq<Call>, c: nat, r: Resource)
    requires c < |calls| && Holds(calls[c], r)
    ensures Holders(calls, r) >= 1
  {
    if c < |calls| - 1 {
      HolderCounts(calls[..|calls| - 1], c, r);
    }
  }

  lemma {:induction false} HolderExists(calls: seq<Call>, r: Resource) returns (c: nat)
    requires Holders(calls, r) >= 1
    ensures c < |calls| && Holds(calls[c], r)
  {
    var n := |calls| - 1;
    if Holds(calls[n], r) {
      c := n;
    } else {
      c := HolderExists(calls[..n], r);
    }
  }

  /** Two calls hold the same one-place resource only if they are the same call. */
  lemma OneHolder(cfg: Config, s: State, c: nat, d: nat, r: Resource)
    requires TokensCounted(cfg, s) && !r.Slot?
    requires c < |s.calls| && Holds(s.calls[c], r) && d < |s.calls| && Holds(s.calls[d], r)
    ensures c == d
  {
    hide Holds;
    assert Tokens(s, r) == Holders(s.calls, r) <= 1;
    if c != d {
      TwoHolders(s.calls, c, d, r);
    }
  }

  lemma {:induction false} TwoHolders(calls: seq<Call>, c: nat, d: nat, r: Resource)
    requires c < |calls| && Holds(calls[c], r) && d < |calls| && Holds(calls[d], r) && c != d
    ensures Holders(calls, r) >= 2
  {
    hide Holds;
    var n := |calls| - 1;
    if c == n {
      HolderCounts(calls[..n], d, r);
    } else if d == n {
      HolderCounts(calls[..n], c, r);
    } else {
      TwoHolders(calls[..n], c, d, r);
    }
  }

  /** Call `c` can take step `m`, with effect `e`. */
  predicate Possible(cfg: Config, s: State, c: nat, m: Move, e: Effect) {
    c < |s.calls| && Act(cfg, s, c, s.calls[c], m) == Some(e) && TokenFree(cfg, s, e.token)
  }

  /** The token that is moved is the one by which what the call holds changes. */
  ghost predicate TokenFollows(call: Call, e: Effect) {
    forall r ::
      && (e.token == Take(r) <==> !Holds(call, r) && Holds(e.call, r))
      && (e.token == Give(r) <==> Holds(call, r) && !Holds(e.call, r))
  }

  lemma TokenFollowsHolding(cfg: Config, s: State, c: nat, call: Call, m: Move)
    requires Act(cfg, s, c, call, m).Some?
    ensures TokenFollows(call, Act(cfg, s, c, call, m).value)
  {
    hide Accepted, SetBytes, ProducerBatch, ShouldRetryProduce;
  }

  lemma TokenKept(cfg: Config, s: State, c: nat, e: Effect, r: Resource)
    requires c < |s.calls| && Tokens(s, r) == Holders(s.calls, r) <= Capacity(cfg, r)
    requires e.token == Take(r) <==> !Holds(s.calls[c], r) && Holds(e.call, r)
    requires e.token == Give(r) <==> Holds(s.calls[c], r) && !Holds(e.call, r)
    requires TokenFree(cfg, s, e.token)
    ensures var t := Carry(s, c, e);
            Tokens(t, r) == Holders(t.calls, r) <= Capacity(cfg, r)
  {
    CarryTokens(s, c, e, r);
    HoldersUpdate(s.calls, c, e.call, r);
    hide Holds, Holders, Carry, Tokens;
  }

  /** The fields of the state after a step of a call. */
  lemma CarryFields(s: State, c: nat, e: Effect)
    requires c < |s.calls|
    ensures var t := Carry(s, c, e);
            && t.calls == s.calls[c := e.call] && t.tokens == MoveToken(s, e.token)
            && t.acks == s.acks && t.logs == s.logs && t.ends == s.ends
            && t.net == (if e.change.Emit? then s.net + [e.change.frame] else s.net)
  {
    hide MoveToken, Sequence, Cast32, AckedCalls;
    match e.change
    case Nothing =>
    case SetIdentity(_, _) =>
    case Emit(_) =>
    case Advance(_, _) =>
  }

  lemma CarryTokens(s: State, c: nat, e: Effect, r: Resource)
    requires c < |s.calls|
    ensures var t, n := Carry(s, c, e), Tokens(s, r);
            && t.calls == s.calls[c := e.call]
            && Tokens(t, r) == (if e.token == Take(r) then n + 1 else if e.token == Give(r) && n > 0 then n - 1 else n)
  {
    CarryFields(s, c, e);
    hide Carry;
  }

  lemma TokensKept(cfg: Config, s: State, c: nat, e: Effect)
    requires TokensCounted(cfg, s) && c < |s.calls|
    requires TokenFollows(s.calls[c], e) && TokenFree(cfg, s, e.token)
    ensures TokensCounted(cfg, Carry(s, c, e))
  {
    hide Holds, Holders, Carry, TokenFree, Capacity;
    forall r
      ensures var t := Carry(s, c, e); Tokens(t, r) == Holders(t.calls, r) <= Capacity(cfg, r)
    {
      assert Tokens(s, r) == Holders(s.calls, r) <= Capacity(cfg, r);
      TokenKept(cfg, s, c, e, r);
    }
  }

  lemma TokensKeptByStart(cfg: Config, s: State, job: Job)
    requires TokensCounted(cfg, s)
    ensures TokensCounted(cfg, Begin(s, job))
  {
    var t := Begin(s, job);
    forall r
      ensures Tokens(t, r) == Holders(t.calls, r) <= Capacity(cfg, r)
    {
      assert Tokens(t, r) == Tokens(s, r);
      assert t.calls[..|s.calls|] == s.calls;
    }
  }

  // ------------------------------------------------------------------- single calls

  /** Between taking its identity and leaving the retry loop. */
  predicate Delivering(p: Phase) {
    p.Route? || p.WaitSlot? || p.Send? || p.LeaveSlot? || p.Backoff? || p.Commit?
  }

  predicate Finished(p: Phase, r: Result) {
    p == Leave(r) || p == Done(r)
  }

  /** The bytes are one batch with these records and this identity. */
  predicate Carries(bytes: Bytes, messages: seq<Message>, id: Identity) {
    var parsed := ParseSet(bytes);
    parsed.Batches? && |parsed.list| == 1 &&
    var b := parsed.list[0];
    b.records == ProtocolRecords(messages) &&
    Identity(b.producerId, b.producerEpoch, b.baseSequence) == id
  }

  predicate Shape(call: Call) {
    && Admitted(call.job)
    && (!call.job.Deliver? ==>
          (Early(call.phase) && !call.phase.WaitOrder? && !call.phase.TakeIdentity?)
          || (call.phase.Done? && !call.phase.result.Stored?))
    && (call.job.Deliver? ==> !Finished(call.phase, Initialised))
    && (Early(call.phase) ==> call.identity.None?)
    && (call.identity.None? ==> call.frames == 0)
    && (Delivering(call.phase) ==> call.identity.Some?)
    && (call.phase.Leave? && call.phase.result.Stored? ==> call.identity.Some?)
    && (call.phase.Done? && call.phase.result.Stored? ==> call.identity.Some?)
  }

  predicate BytesOk(call: Call) {
    && (call.phase.WaitSlot? ==>
          call.job.Deliver? && call.identity.Some?
          && Carries(call.phase.bytes, call.job.messages, call.identity.value))
    && (call.phase.Send? ==>
          call.job.Deliver? && call.identity.Some?
          && Carries(call.phase.bytes, call.job.messages, call.identity.value))
  }

  predicate IdentityOk(s: State, call: Call) {
    && (call.identity.Some? && call.identity.value.producerId >= 0 ==>
          call.identity.value.producerId == s.producerId && call.identity.value.epoch == s.epoch)
    && (call.phase.SendInit? ==> s.producerId < 0)
    && (Delivering(call.phase) && call.job.Deliver? && call.identity.Some? ==>
          call.identity.value.baseSequence == Sequence(s, call.job.key))
  }

  /** The broker acknowledged a request of call `c` with this offset. */
  ghost predicate Vouched(acks: set<Ack>, c: nat, offset: nat) {
    exists a :: Ack(c, a, offset) in acks
  }

  ghost predicate AnswerOk(acks: set<Ack>, c: nat, call: Call) {
    match call.phase
    case LeaveSlot(_, _, answer) => answer.Acked? ==> Vouched(acks, c, answer.offset)
    case Commit(_, offset) => Vouched(acks, c, offset)
    case Leave(r) => r.Stored? ==> Vouched(acks, c, r.offset)
    case Done(r) => r.Stored? ==> Vouched(acks, c, r.offset)
    case _ => true
  }

  ghost predicate CallsOk(s: State) {
    forall c :: 0 <= c < |s.calls| ==>
                  Shape(s.calls[c]) && BytesOk(s.calls[c]) && IdentityOk(s, s.calls[c]) && AnswerOk(s.acks, c, s.calls[c])
  }

  lemma ShapeKept(cfg: Config, s: State, c: nat, call: Call, m: Move)
    requires Shape(call) && Act(cfg, s, c, call, m).Some?
    ensures Shape(Act(cfg, s, c, call, m).value.call)
  {
    hide Accepted, SetBytes, ProducerBatch, ShouldRetryProduce, Sized31;
  }

  lemma BytesKept(cfg: Config, s: State, c: nat, call: Call, m: Move)
    requires Shape(call) && BytesOk(call) && Act(cfg, s, c, call, m).Some?
    ensures BytesOk(Act(cfg, s, c, call, m).value.call)
  {
    hide Accepted, SetBytes, ProducerBatch, ShouldRetryProduce, Sized31, Carries;
    if call.phase.Route? && m.Routed? && Accepted(call.job.messages) {
      AttemptCarries(call.job.messages, call.identity.value, m.leaderEpoch, m.now);
    }
  }

  lemma AnswerKept(cfg: Config, s: State, c: nat, call: Call, m: Move)
    requires AnswerOk(s.acks, c, call) && Act(cfg, s, c, call, m).Some?
    ensures AnswerOk(s.acks, c, Act(cfg, s, c, call, m).value.call)
  {
    hide Accepted, SetBytes, ProducerBatch, ShouldRetryProduce, Sized31;
  }

  lemma AttemptCarries(messages: seq<Message>, id: Identity, leaderEpoch: Int32, now: Int64)
    requires Sized31(messages) && Accepted(messages)
    ensures Carries(SetBytes([ProducerBatch(messages, id, leaderEpoch, now)]), messages, id)
  {
    AttemptDecodes(messages, id, leaderEpoch, now);
    hide ParseSet, SetBytes, BatchBytes, Accepted, Sized31;
  }

  /** How a step changes its call and the shared variables. */
  ghost predicate Lawful(s: State, c: nat, call: Call, e: Effect) {
    && e.call.job == call.job
    && (e.call.identity == call.identity
        || (call.job.Deliver? && call.identity.None? && e.change.Nothing?
            && e.call.identity == Some(Identity(s.producerId, s.epoch, Sequence(s, call.job.key)))))
    && (e.call.phase.SendInit? ==> s.producerId < 0 && e.change.Nothing?)
    && (Delivering(e.call.phase) && e.call.identity == call.identity ==> Delivering(call.phase))
    && (e.change.SetIdentity? ==>
          call.phase.SendInit? && !Delivering(e.call.phase) && e.call.identity.None?)
    && (e.change.Advance? ==>
          && call.phase.Commit? && call.job.Deliver? && call.job.key == e.change.key
          && e.change.count == |call.job.messages| && e.call.phase == Leave(Stored(call.phase.offset)))
    && (e.change.Emit? ==>
          && call.job.Deliver? && call.phase.Send? && e.call.phase.Send?
          && e.change.frame == Frame(c, call.phase.attempt, call.job.key, call.phase.bytes))
    && e.call.frames == call.frames + (if e.change.Emit? then 1 else 0)
    && (Delivering(call.phase) ==>
          Delivering(e.call.phase) || e.call.phase == Leave(Failed) || e.change.Advance?)
    && (call.phase.Leave? || call.phase.Done? ==> Finished(e.call.phase, call.phase.result))
    && ((e.call.phase.Leave? || e.call.phase.Done?) && e.call.phase.result.Stored? ==>
          e.change.Advance? || Finished(call.phase, e.call.phase.result))
  }

  lemma ActIsLawful(cfg: Config, s: State, c: nat, call: Call, m: Move)
    requires Shape(call) && Act(cfg, s, c, call, m).Some?
    ensures Lawful(s, c, call, Act(cfg, s, c, call, m).value)
  {
    hide Accepted, SetBytes, ProducerBatch, ShouldRetryProduce, Sized31;
  }

  /** Two calls are never both inside the initialisation, nor both delivering to one key. */
  predicate Apart(call: Call, other: Call) {
    && !(call.phase.SendInit? && other.phase.SendInit?)
    && !(Delivering(call.phase) && Delivering(other.phase) && call.job.Deliver? && other.job.Deliver?
         && call.job.key == other.job.key)
  }

  lemma CallsApart(cfg: Config, s: State, c: nat, d: nat)
    requires TokensCounted(cfg, s) && c < |s.calls| && d < |s.calls| && c != d
    ensures Apart(s.calls[c], s.calls[d])
  {
    hide TokensCounted;
    var call, other := s.calls[c], s.calls[d];
    if !Apart(call, other) {
      if call.phase.SendInit? && other.phase.SendInit? {
        OneHolder(cfg, s, c, d, InitLock);
      } else {
        OneHolder(cfg, s, c, d, OrderLock(call.job.key));
      }
    }
  }

  lemma OwnIdentityKept(s: State, c: nat, e: Effect)
    requires c < |s.calls| && Shape(s.calls[c]) && IdentityOk(s, s.calls[c]) && Lawful(s, c, s.calls[c], e)
    ensures IdentityOk(Carry(s, c, e), e.call)
  {
    hide Admitted, MoveToken;
  }

  lemma OtherIdentityKept(s: State, c: nat, e: Effect, other: Call)
    requires c < |s.calls| && IdentityOk(s, s.calls[c]) && Lawful(s, c, s.calls[c], e)
    requires Shape(other) && IdentityOk(s, other) && Apart(s.calls[c], other)
    ensures IdentityOk(Carry(s, c, e), other)
  {
    hide Admitted, MoveToken;
  }
}
