/** The delivery protocol of an idempotent producer as a state machine (producer/producer.go,
    producer/transaction.go): any number of concurrent `produceRecords` calls, issued by `Send`
    callers and by the background worker, over a network that loses, delays, repeats and
    reorders requests, and over a broker that appends a batch only when its base sequence is the
    next one expected.

    Every mutex section and every channel operation is one step.  A step of a call names what
    it changes: its own phase, at most one semaphore token, at most one shared variable. */
module Delivery {
  import opened Wrappers
  import opened Wire
  import opened RecordBatches
  import opened RecordBatchSets
  import opened ProducerBatches

  type Endpoint = string

  /** The producer's options after normalisation, and the attempt limit of the protocol client: one
      protocol-level send transmits its request at most twice that often
      (`ProtocolClient.Client.Send`). */
  datatype Config = Config(retryMaxAttempts: nat, maxInFlight: nat, maxAttempts: nat) {
    const framesPerSend: nat := 2 * maxAttempts
  }

  predicate ValidConfig(cfg: Config) {
    cfg.retryMaxAttempts >= 1 && cfg.maxInFlight >= 1
  }

  // ---------------------------------------------------------------------- calls

  /** What a call does: deliver records, or only see to it that there is a producer id, with
      (`BeginTransaction`) or without (`InitProducerID`) looking for one first. */
  datatype Job = Deliver(key: Key, messages: seq<Message>) | EnsureId | InitId

  datatype Failure = Transport | Code(code: Int16)

  datatype Answer =
    | Acked(offset: nat)
    | MissingPartition
    | UnexpectedBody
    | Error(failure: Failure, expired: bool)

  datatype Result = Failed | Stored(offset: nat) | Initialised

  datatype Phase =
    | WaitOrder
    | CheckIdentity
    | WaitInit
    | Recheck
    | SendInit
    | LeaveInit(ok: bool)
    | TakeIdentity
    | Route(attempt: nat)
    | WaitSlot(attempt: nat, endpoint: Endpoint, bytes: Bytes)
    | Send(attempt: nat, endpoint: Endpoint, bytes: Bytes, budget: nat)
    | LeaveSlot(attempt: nat, endpoint: Endpoint, answer: Answer)
    | Backoff(attempt: nat)
    | Commit(attempt: nat, offset: nat)
    | Leave(result: Result)
    | Done(result: Result)

  /** A call in progress; `frames` counts the requests it has transmitted. */
  datatype Call = Call(job: Job, phase: Phase, identity: Option<Identity>, frames: nat)

  // ---------------------------------------------------------------------- state

  /** The one-place ordering channel of a key, the mutex of the initialisation, the in-flight
      channel of an endpoint. */
  datatype Resource = OrderLock(key: Key) | InitLock | Slot(endpoint: Endpoint)

  /** A transmitted produce request.  `call` and `attempt` stand for the correlation id that
      ties the response to its sender; the broker looks at the key and the bytes only. */
  datatype Frame = Frame(call: nat, attempt: nat, key: Key, bytes: Bytes)

  /** A batch in a partition log. */
  datatype Entry = Entry(call: nat, producerId: Int64, baseSequence: Int32, records: seq<Record>, offset: nat)

  datatype Ack = Ack(call: nat, attempt: nat, offset: nat)

  datatype State = State(
    producerId: Int64,
    epoch: Int16,
    sequences: map<Key, Int32>,
    tokens: map<Resource, nat>,
    calls: seq<Call>,
    net: seq<Frame>,           // every request ever transmitted
    logs: map<Key, seq<Entry>>,  // this producer's batches at the broker
    ends: map<Key, nat>,       // log end offsets, counting other producers' records too
    acks: set<Ack>,            // every acknowledgement the broker ever sent
    acked: map<Key, seq<nat>>) // calls in the order in which they committed their sequence

  function Sequence(s: State, k: Key): Int32 { if k in s.sequences then s.sequences[k] else 0 }

  function Tokens(s: State, r: Resource): nat { if r in s.tokens then s.tokens[r] else 0 }

  function Log(s: State, k: Key): seq<Entry> { if k in s.logs then s.logs[k] else [] }

  function End(s: State, k: Key): nat { if k in s.ends then s.ends[k] else 0 }

  function AckedCalls(s: State, k: Key): seq<nat> { if k in s.acked then s.acked[k] else [] }

  function Capacity(cfg: Config, r: Resource): nat {
    if r.Slot? then cfg.maxInFlight else 1
  }

  function Initial(producerId: Int64, epoch: Int16): State {
    State(producerId, epoch, map[], map[], [], [], map[], map[], {}, map[])
  }

  // ---------------------------------------------------------------- steps of a call

  datatype Change =
    | Nothing
    | SetIdentity(producerId: Int64, epoch: Int16)
    | Emit(frame: Frame)
    | Advance(key: Key, count: nat)

  datatype Token = Keep | Take(resource: Resource) | Give(resource: Resource)

  datatype Effect = Effect(call: Call, token: Token, change: Change)

  /** What the scheduler and the environment decide in a step of a call: `Proceed` with the
      code as written, `GiveUp` when a context expires, or an outcome from outside. */
  datatype Move =
    | Proceed
    | GiveUp
    | Granted(producerId: Int64, epoch: Int16)
    | Refused
    | Routed(endpoint: Endpoint, leaderEpoch: Int32, now: Int64)
    | Unroutable
    | Transmit
    | Answered(answer: Answer)

  predicate RequiresMetadataRefresh(f: Failure) {
    f.Code? && f.code in {7, 8, 9, 10}
  }

  predicate IsRetriable(f: Failure) {
    f.Code? && f.code in {1, 6, 7, 8, 9, 10, 16, 17}
  }

  predicate ShouldRefreshRoute(f: Failure, expired: bool) {
    !expired && (RequiresMetadataRefresh(f) || !f.Code?)
  }

  predicate ShouldRetryProduce(f: Failure, expired: bool) {
    !expired && (ShouldRefreshRoute(f, expired) || IsRetriable(f))
  }

  function First(job: Job): Phase {
    match job
    case Deliver(_, _) => WaitOrder
    case EnsureId => CheckIdentity
    case InitId => WaitInit
  }

  function IdentityKnown(job: Job): Phase {
    if job.Deliver? then TakeIdentity else Done(Initialised)
  }

  function IdentityFailed(job: Job): Phase {
    if job.Deliver? then Leave(Failed) else Done(Failed)
  }

  /** Where the retry loop goes once the in-flight slot is given back. */
  function AfterAnswer(cfg: Config, attempt: nat, answer: Answer): Phase {
    match answer
    case Acked(offset) => Commit(attempt, offset)
    case UnexpectedBody => Leave(Failed)
    case MissingPartition => if attempt < cfg.retryMaxAttempts then Route(attempt + 1) else Leave(Failed)
    case Error(f, expired) =>
      if attempt < cfg.retryMaxAttempts && ShouldRetryProduce(f, expired) then Backoff(attempt)
      else Leave(Failed)
  }

  function To(call: Call, phase: Phase): Option<Effect> {
    Some(Effect(call.(phase := phase), Keep, Nothing))
  }

  function Taking(call: Call, r: Resource, phase: Phase): Option<Effect> {
    Some(Effect(call.(phase := phase), Take(r), Nothing))
  }

  function Giving(call: Call, r: Resource, phase: Phase): Option<Effect> {
    Some(Effect(call.(phase := phase), Give(r), Nothing))
  }

  /** Before the identity is taken. */
  function ActEarly(s: State, call: Call, m: Move): Option<Effect> {
    match call.phase
    case WaitOrder =>
      if !call.job.Deliver? then None
      else if m.Proceed? then Taking(call, OrderLock(call.job.key), CheckIdentity)
      else if m.GiveUp? then To(call, Done(Failed))
      else None
    case CheckIdentity =>
      if !m.Proceed? then None
      else To(call, if s.producerId >= 0 then IdentityKnown(call.job) else WaitInit)
    case WaitInit =>
      if m.Proceed? then Taking(call, InitLock, Recheck) else None
    case Recheck =>
      if m.Proceed? then To(call, if s.producerId >= 0 then LeaveInit(true) else SendInit)
      else if m.GiveUp? && s.producerId < 0 then To(call, LeaveInit(false))
      else None
    case SendInit =>
      if m.Granted? then
        Some(Effect(call.(phase := LeaveInit(true)), Keep, SetIdentity(m.producerId, m.epoch)))
      else if m.Refused? then To(call, LeaveInit(false))
      else None
    case LeaveInit(ok) =>
      if !m.Proceed? then None
      else Giving(call, InitLock, if ok then IdentityKnown(call.job) else IdentityFailed(call.job))
    case TakeIdentity =>
      if !m.Proceed? || !call.job.Deliver? then None
      else
        var id := Identity(s.producerId, s.epoch, Sequence(s, call.job.key));
        Some(Effect(call.(phase := Route(1), identity := Some(id)), Keep, Nothing))
    case _ => None
  }

  /** From the first attempt on. */
  function ActLate(cfg: Config, s: State, c: nat, call: Call, m: Move): Option<Effect> {
    if !call.job.Deliver? then None
    else
      match call.phase
      case Route(a) =>
        if m.Unroutable? then To(call, Leave(Failed))
        else if !m.Routed? || call.identity.None? then None
        else if !Accepted(call.job.messages) then To(call, Leave(Failed))
        else
          var batch := ProducerBatch(call.job.messages, call.identity.value, m.leaderEpoch, m.now);
          To(call, WaitSlot(a, m.endpoint, SetBytes([batch])))
      case WaitSlot(a, e, bytes) =>
        if m.Proceed? then Taking(call, Slot(e), Send(a, e, bytes, cfg.framesPerSend))
        else if m.GiveUp? then To(call, Leave(Failed))
        else None
      case Send(a, e, bytes, budget) =>
        if m.Transmit? && budget > 0 then
          Some(Effect(call.(phase := Send(a, e, bytes, budget - 1), frames := call.frames + 1), Keep,
                      Emit(Frame(c, a, call.job.key, bytes))))
        else if m.Answered? && (m.answer.Acked? ==> Ack(c, a, m.answer.offset) in s.acks) then
          To(call, LeaveSlot(a, e, m.answer))
        else None
      case LeaveSlot(a, e, answer) =>
        if m.Proceed? then Giving(call, Slot(e), AfterAnswer(cfg, a, answer)) else None
      case Backoff(a) =>
        if m.Proceed? then To(call, Route(a + 1))
        else if m.GiveUp? then To(call, Leave(Failed))
        else None
      case Commit(_, offset) =>
        if m.Proceed? then
          Some(Effect(call.(phase := Leave(Stored(offset))), Keep, Advance(call.job.key, |call.job.messages|)))
        else None
      case Leave(result) =>
        if m.Proceed? then Giving(call, OrderLock(call.job.key), Done(result)) else None
      case _ => None
  }

  predicate Early(p: Phase) {
    p.WaitOrder? || p.CheckIdentity? || p.WaitInit? || p.Recheck? || p.SendInit? || p.LeaveInit? || p.TakeIdentity?
  }

  function Act(cfg: Config, s: State, c: nat, call: Call, m: Move): Option<Effect> {
    if Early(call.phase) then ActEarly(s, call, m) else ActLate(cfg, s, c, call, m)
  }

  /** A channel send is possible below the capacity; a release never blocks, and takes out
      nothing when the channel is empty. */
  predicate TokenFree(cfg: Config, s: State, t: Token) {
    t.Take? ==> Tokens(s, t.resource) < Capacity(cfg, t.resource)
  }

  function MoveToken(s: State, t: Token): map<Resource, nat> {
    match t
    case Keep => s.tokens
    case Take(r) => s.tokens[r := Tokens(s, r) + 1]
    case Give(r) => if Tokens(s, r) > 0 then s.tokens[r := Tokens(s, r) - 1] else s.tokens
  }

  function Carry(s: State, c: nat, e: Effect): State
    requires c < |s.calls|
  {
    var t := s.(calls := s.calls[c := e.call], tokens := MoveToken(s, e.token));
    match e.change
    case Nothing => t
    case SetIdentity(p, epoch) => t.(producerId := p, epoch := epoch)
    case Emit(frame) => t.(net := t.net + [frame])
    case Advance(k, n) =>
      t.(sequences := t.sequences[k := Cast32(Sequence(s, k) + n)],
         acked := t.acked[k := AckedCalls(s, k) + [c]])
  }

  // ------------------------------------------------------------------- the broker

  function Expected(log: seq<Entry>, producerId: Int64): nat {
    if log == [] then 0
    else
      var last := log[|log| - 1];
      Expected(log[..|log| - 1], producerId) + (if last.producerId == producerId then |last.records| else 0)
  }

  /** The offset of a batch with this identity, if the log holds one. */
  function Find(log: seq<Entry>, producerId: Int64, baseSequence: Int32): Option<nat> {
    if log == [] then None
    else
      var last := log[|log| - 1];
      if last.producerId == producerId && last.baseSequence == baseSequence then Some(last.offset)
      else Find(log[..|log| - 1], producerId, baseSequence)
  }

  function Append(s: State, f: Frame, b: RecordBatch): State {
    var entry := Entry(f.call, b.producerId, b.baseSequence, b.records, End(s, f.key));
    s.(logs := s.logs[f.key := Log(s, f.key) + [entry]],
       ends := s.ends[f.key := End(s, f.key) + |b.records|],
       acks := s.acks + {Ack(f.call, f.attempt, End(s, f.key))})
  }

  predicate Appends(s: State, f: Frame, b: RecordBatch) {
    b.producerId < 0 || b.baseSequence == Expected(Log(s, f.key), b.producerId)
  }

  /** A batch without a producer id is appended as it comes; one with an id is appended when it
      is the next expected, acknowledged when its sequence is already there, and otherwise
      refused. */
  function Store(s: State, f: Frame, b: RecordBatch): State {
    if Appends(s, f, b) then Append(s, f, b)
    else
      var known := Find(Log(s, f.key), b.producerId, b.baseSequence);
      if known.Some? then s.(acks := s.acks + {Ack(f.call, f.attempt, known.value)}) else s
  }

  /** The broker handles a request, decoding the bytes that were sent. */
  function Handle(s: State, f: Frame): State {
    var parsed := ParseSet(f.bytes);
    if parsed.Batches? && |parsed.list| == 1 then Store(s, f, parsed.list[0]) else s
  }

  // --------------------------------------------------------------------- the system

  datatype Label =
    | Start(job: Job)
    | Step(call: nat, move: Move)
    | Receive(frame: nat)                  // the broker handles a request, late or once more
    | Foreign(key: Key, count: nat)        // another producer appends

  /** Callers pass at least one record, and no more than can be encoded in 31 bits. */
  predicate Admitted(job: Job) {
    job.Deliver? ==> job.messages != [] && Sized31(job.messages)
  }

  function Begin(s: State, job: Job): State {
    s.(calls := s.calls + [Call(job, First(job), None, 0)])
  }

  function Apply(cfg: Config, s: State, l: Label): Option<State> {
    match l
    case Start(job) =>
      if Admitted(job) then Some(Begin(s, job)) else None
    case Step(c, m) =>
      if c >= |s.calls| then None
      else
        var e := Act(cfg, s, c, s.calls[c], m);
        if e.None? || !TokenFree(cfg, s, e.value.token) then None else Some(Carry(s, c, e.value))
    case Receive(i) =>
      if i < |s.net| then Some(Handle(s, s.net[i])) else None
    case Foreign(k, n) =>
      Some(s.(ends := s.ends[k := End(s, k) + n]))
  }

  /** The state after a run, or nothing when one of its steps is not possible. */
  function Run(cfg: Config, s: State, labels: seq<Label>): Option<State> {
    if labels == [] then Some(s)
    else
      var before := Run(cfg, s, labels[..|labels| - 1]);
      if before.None? then None else Apply(cfg, before.value, labels[|labels| - 1])
  }
}
