/** The producer as it runs (producer/producer.go, producer/transaction.go): the methods of one
    call, with every other call and the broker free to take any number of their own steps between
    any two of its own.  The methods are proved to make only moves of the delivery protocol, so
    that what holds of every run of the protocol holds of them. */
module Producer {
  import opened Wrappers
  import opened Wire
  import opened RecordBatches
  import opened RecordBatchSets
  import opened ProducerBatches
  import opened Delivery
  import opened DeliveryInvariant
  import opened DeliverySafety
  import opened DeliveryHistory
  import opened DeliveryLedger
  import opened DeliveryRuns
  import opened DeliveryProgress
  import opened RecordBatchCodec

  /** Steps of everyone but call `c`; a label that is not possible, or is a step of `c`, is skipped. */
  function Meanwhile(cfg: Config, s: State, c: nat, labels: seq<Label>): State {
    if labels == [] then s
    else
      var before := Meanwhile(cfg, s, c, labels[..|labels| - 1]);
      var l := labels[|labels| - 1];
      if (l.Step? && l.call == c) || Apply(cfg, before, l).None? then before
      else Apply(cfg, before, l).value
  }

  lemma OtherStep(cfg: Config, s: State, c: nat, l: Label)
    requires Apply(cfg, s, l).Some? && c < |s.calls| && !(l.Step? && l.call == c)
    ensures var t := Apply(cfg, s, l).value; |t.calls| >= |s.calls| && t.calls[c] == s.calls[c]
  {
    match l {
      case Step(d, m) =>
        hide Act;
        CarryFields(s, d, Act(cfg, s, d, s.calls[d], m).value);
      case Receive(i) =>
        hide ParseSet;
        BrokerKeepsCalls(s, s.net[i]);
      case _ =>
    }
  }

  lemma BrokerKeepsCalls(s: State, f: Frame)
    ensures Handle(s, f).calls == s.calls
  {
    hide ParseSet, Expected, Find, Log, End;
  }

  lemma {:induction false} MeanwhileKeeps(cfg: Config, since: State, s: State, c: nat, labels: seq<Label>)
    requires Arrived(cfg, since, s) && c < |s.calls|
    ensures var t := Meanwhile(cfg, s, c, labels);
            Arrived(cfg, since, t) && |t.calls| >= |s.calls| && t.calls[c] == s.calls[c]
  {
    hide Apply, Arrived;
    if labels != [] {
      var before, l := Meanwhile(cfg, s, c, labels[..|labels| - 1]), labels[|labels| - 1];
      MeanwhileKeeps(cfg, since, s, c, labels[..|labels| - 1]);
      if !((l.Step? && l.call == c) || Apply(cfg, before, l).None?) {
        ArrivedMore(cfg, since, before, l);
        OtherStep(cfg, before, c, l);
      }
    }
  }

  // ------------------------------------------------------------------ acknowledgements

  datatype Metadata = Metadata(topic: Bytes, partition: Int32, offset: nat)

  /** One metadata for each of `count` records, at consecutive offsets. */
  predicate Numbered(metadata: seq<Metadata>, key: Key, baseOffset: nat, count: nat) {
    && |metadata| == count
    && forall i :: 0 <= i < count ==> metadata[i] == Metadata(key.topic, key.partition, baseOffset + i)
  }

  method MetadataFromResponse(key: Key, baseOffset: nat, count: nat) returns (metadata: seq<Metadata>)
    ensures Numbered(metadata, key, baseOffset, count)
  {
    metadata := [];
    for index := 0 to count
      invariant Numbered(metadata, key, baseOffset, index)
    {
      metadata := metadata + [Metadata(key.topic, key.partition, baseOffset + index)];
    }
  }

  lemma ArrivedIsReachable(cfg: Config, since: State, s: State)
    requires Arrived(cfg, since, s)
    ensures Reachable(cfg, s)
  {}

  // --------------------------------------------------------- what happens to a call

  datatype Target = Target(endpoint: Endpoint, leaderEpoch: Int32, now: Int64)

  /** What the surroundings do to one attempt: its route, whether the context outlives the wait for a
      place, how often the request goes out, the answer, whether the context outlives the backoff. */
  datatype Trial = Trial(route: Option<Target>, waits: bool, transmissions: nat, answer: Answer, rests: bool)

  /** What they do to one call. */
  datatype Circumstances = Circumstances(
    ordered: bool,                        // the context outlives the wait for the ordering lock
    bootstraps: bool,                     // there is an endpoint to ask for a producer id
    granted: Option<(Int64, Int16)>,
    trials: nat -> Trial)

  /** The failures after which a call goes on: no answer, or an error that a new route or a new attempt
      may cure, while the context lives; and a response that does not name the partition. */
  predicate Transient(a: Answer) {
    || a.MissingPartition?
    || (a.Error? && !a.expired && (a.failure.Transport? || a.failure.code in {1, 6, 7, 8, 9, 10, 16, 17}))
  }

  /** What a call does with an answer, code by code. */
  lemma AnswerDecides(cfg: Config, attempt: nat, a: Answer)
    ensures a.Acked? ==> AfterAnswer(cfg, attempt, a) == Commit(attempt, a.offset)
    ensures a.Error? && Transient(a) && attempt < cfg.retryMaxAttempts ==> AfterAnswer(cfg, attempt, a) == Backoff(attempt)
    ensures a.MissingPartition? && attempt < cfg.retryMaxAttempts ==> AfterAnswer(cfg, attempt, a) == Route(attempt + 1)
    ensures !a.Acked? && !(Transient(a) && attempt < cfg.retryMaxAttempts) ==>
              AfterAnswer(cfg, attempt, a) == Leave(Failed)
  {}

  /** The answer the call sees; an acknowledgement that the broker never sent is none. */
  predicate Told(trial: Trial, a: Answer) {
    a == trial.answer || (trial.answer.Acked? && a == Error(Transport, true))
  }

  /** The call goes on to another attempt. */
  predicate Repeats(trial: Trial, a: Answer) {
    Transient(a) && (a.Error? ==> trial.rests)
  }

  /** The attempt ends before a request is sent. */
  predicate Blocked(messages: seq<Message>, trial: Trial) {
    trial.route.None? || !Accepted(messages) || !trial.waits
  }

  /** The result of the retry loop, from the answers that the call got: every attempt but the last was
      followed by another one because it could be, and the last one decides. */
  predicate Verdict(limit: nat, messages: seq<Message>, trials: nat -> Trial, answers: seq<Answer>, result: Result) {
    var n := |answers|;
    && n <= limit
    && (forall i :: 0 <= i < n ==> Asked(messages, trials, i, answers[i]))
    && (forall i :: 0 <= i < n - 1 ==> Continues(trials, i, answers[i]))
    && if n > 0 && (n == limit || !Continues(trials, n - 1, answers[n - 1])) then
         result == if answers[n - 1].Acked? then Stored(answers[n - 1].offset) else Failed
       else
         n < limit && Blocked(messages, trials(n + 1)) && result == Failed
  }

  /** Attempt i + 1 was sent and got this answer. */
  predicate Asked(messages: seq<Message>, trials: nat -> Trial, i: nat, a: Answer) {
    !Blocked(messages, trials(i + 1)) && Told(trials(i + 1), a)
  }

  predicate Continues(trials: nat -> Trial, i: nat, a: Answer) {
    Repeats(trials(i + 1), a)
  }

  function Fewer(a: nat, b: nat): nat { if a < b then a else b }

  /** The call fails before its first attempt: no lock, or no producer id. */
  predicate Unsent(w: Circumstances, result: Result) {
    result == Failed && (!w.ordered || !w.bootstraps || w.granted.None?)
  }

  // ------------------------------------------------------------- waiting for a place

  /** A holder of `r`, or 0. */
  function HolderOf(calls: seq<Call>, r: Resource): nat {
    if calls == [] then 0
    else if Holds(calls[|calls| - 1], r) then |calls| - 1
    else HolderOf(calls[..|calls| - 1], r)
  }

  lemma {:induction false} HolderIsFound(calls: seq<Call>, r: Resource)
    requires Holders(calls, r) >= 1
    ensures HolderOf(calls, r) < |calls| && Holds(calls[HolderOf(calls, r)], r)
  {
    hide Holds;
    if !Holds(calls[|calls| - 1], r) {
      HolderIsFound(calls[..|calls| - 1], r);
    }
  }

  /** While the place that call `c` waits for is taken, its holder can go on, or whoever holds what that
      one waits for can. */
  method NextMove(cfg: Config, s: State, c: nat) returns (d: nat, m: Move)
    requires ValidConfig(cfg) && Reachable(cfg, s) && c < |s.calls| && Waits(s.calls[c])
    requires Tokens(s, Wanted(s.calls[c])) >= Capacity(cfg, Wanted(s.calls[c]))
    ensures d != c && Apply(cfg, s, Step(d, m)).Some?
  {
    d := FreeHolder(cfg, s, c);
    ShapeOf(cfg, s, d);
    m := OwnMove(s.calls[d].phase);
    hide Reachable;
    OwnMoveIsPossible(cfg, s, d);
  }

  predicate Waits(call: Call) {
    call.phase.WaitInit? || call.phase.WaitSlot? || (call.phase.WaitOrder? && call.job.Deliver?)
  }

  /** A move that needs neither an expiry nor a request. */
  function OwnMove(p: Phase): Move {
    if p.SendInit? then Refused else if p.Route? then Unroutable
    else if p.Send? then Answered(UnexpectedBody) else Proceed
  }

  lemma ShapeOf(cfg: Config, s: State, d: nat)
    requires Reachable(cfg, s) && d < |s.calls|
    ensures Shape(s.calls[d]) && TokensCounted(cfg, s)
  {
    ReachableHolds(cfg, s);
    InvCalls(cfg, s);
    hide Inv, Reachable;
  }

  lemma OwnMoveIsPossible(cfg: Config, s: State, d: nat)
    requires d < |s.calls| && Shape(s.calls[d]) && !s.calls[d].phase.Done?
    requires Waits(s.calls[d]) ==> Tokens(s, Wanted(s.calls[d])) < Capacity(cfg, Wanted(s.calls[d]))
    ensures Apply(cfg, s, Step(d, OwnMove(s.calls[d].phase))).Some?
  {
    hide Accepted, SetBytes, ProducerBatch, AfterAnswer, Carry, Sized31;
  }

  method FreeHolder(cfg: Config, s: State, c: nat) returns (d: nat)
    requires ValidConfig(cfg) && Reachable(cfg, s) && c < |s.calls| && Waits(s.calls[c])
    requires Tokens(s, Wanted(s.calls[c])) >= Capacity(cfg, Wanted(s.calls[c]))
    ensures d != c && d < |s.calls| && !s.calls[d].phase.Done?
    ensures Waits(s.calls[d]) ==> Tokens(s, Wanted(s.calls[d])) < Capacity(cfg, Wanted(s.calls[d]))
  {
    d := HolderOf(s.calls, Wanted(s.calls[c]));
    HolderOfTaken(cfg, s, Wanted(s.calls[c]));
    hide Reachable, Tokens;
    ShapeOf(cfg, s, d);
    if Waits(s.calls[d]) && Tokens(s, Wanted(s.calls[d])) >= Capacity(cfg, Wanted(s.calls[d])) {
      var r := Wanted(s.calls[d]);
      d := HolderOf(s.calls, r);
      HolderOfTaken(cfg, s, r);
      ShapeOf(cfg, s, d);
    }
  }

  lemma HolderOfTaken(cfg: Config, s: State, r: Resource)
    requires ValidConfig(cfg) && Reachable(cfg, s) && Tokens(s, r) >= Capacity(cfg, r)
    ensures HolderOf(s.calls, r) < |s.calls| && Holds(s.calls[HolderOf(s.calls, r)], r)
  {
    MutualExclusion(cfg, s, r);
    hide Reachable, Holds, Holders;
    HolderIsFound(s.calls, r);
  }

  // ------------------------------------------------------------------------ the client

  class Client {
    const cfg: Config
    const world: nat -> Circumstances  // what happens to each call
    var producerId: Int64
    var epoch: Int16
    var sequences: map<Key, Int32>
    var channels: map<Resource, nat>   // the lengths of the semaphore channels; the mutex is one of them
    // what goes on outside the client, and how far each call has come
    var calls: seq<Call>
    var net: seq<Frame>
    var logs: map<Key, seq<Entry>>
    var ends: map<Key, nat>
    var acks: set<Ack>
    var acked: map<Key, seq<nat>>
    ghost var since: State             // the state in which the current delivery began

    constructor (cfg: Config, world: nat -> Circumstances, producerId: Int64, epoch: Int16)
      ensures this.cfg == cfg && this.world == world && Snapshot() == Initial(producerId, epoch)
    {
      since := Initial(producerId, epoch);
      this.cfg, this.world := cfg, world;
      this.producerId, this.epoch, sequences, channels := producerId, epoch, map[], map[];
      calls, net, logs, ends, acks, acked := [], [], map[], map[], {}, map[];
    }

    function Snapshot(): State
      reads this
    {
      State(producerId, epoch, sequences, channels, calls, net, logs, ends, acks, acked)
    }

    /** Call `c` does `job`, has come to `phase`, and the client got here by a run of the protocol, by
        way of the state in which the current delivery began. */
    ghost predicate Here(c: nat, job: Job, phase: Phase)
      reads this
    {
      c < |calls| && calls[c].job == job && calls[c].phase == phase && Arrived(cfg, since, Snapshot())
    }

    /** The same, for a call that has its identity. */
    ghost predicate Holding(c: nat, job: Job, phase: Phase, id: Identity)
      reads this
    {
      Here(c, job, phase) && calls[c].identity == Some(id)
    }

    /** Other callers, the worker and the broker take their steps. */
    method Others(c: nat, ghost job: Job, ghost phase: Phase)
      requires Here(c, job, phase)
      modifies this
      ensures since == old(since)
      ensures Here(c, job, phase) && calls[c] == old(calls[c])
    {
      var labels: seq<Label> := *;
      var s := Meanwhile(cfg, Snapshot(), c, labels);
      MeanwhileKeeps(cfg, since, Snapshot(), c, labels);
      Adopt(s);
    }

    method Enter(c: nat, phase: Phase)
      requires c < |calls|
      modifies this`calls
      ensures calls == old(calls)[c := old(calls)[c].(phase := phase)]
    {
      calls := calls[c := calls[c].(phase := phase)];
    }

    /** A step that only moves the call on. */
    method Goto(c: nat, ghost m: Move, phase: Phase, ghost job: Job, ghost from: Phase)
      requires Here(c, job, from)
      requires Possible(cfg, Snapshot(), c, m, Effect(calls[c].(phase := phase), Keep, Nothing))
      modifies this`calls
      ensures Here(c, job, phase) && calls == old(calls)[c := old(calls)[c].(phase := phase)]
    {
      hide Arrived, Act, TokenFree, Possible;
      ArrivedStep(cfg, since, Snapshot(), c, m, Effect(calls[c].(phase := phase), Keep, Nothing));
      calls := calls[c := calls[c].(phase := phase)];
    }

    /** A channel send that finds a free place. */
    method Take(c: nat, r: Resource, phase: Phase, ghost job: Job, ghost from: Phase)
      requires Here(c, job, from)
      requires Possible(cfg, Snapshot(), c, Proceed, Effect(calls[c].(phase := phase), Token.Take(r), Nothing))
      modifies this`calls, this`channels
      ensures Here(c, job, phase) && calls == old(calls)[c := old(calls)[c].(phase := phase)]
    {
      hide Arrived, Act, TokenFree, Possible;
      ArrivedStep(cfg, since, Snapshot(), c, Proceed, Effect(calls[c].(phase := phase), Token.Take(r), Nothing));
      channels := channels[r := Length(r) + 1];
      calls := calls[c := calls[c].(phase := phase)];
    }

    /** A release: takes a token out of the channel unless it is empty. */
    method Give(c: nat, r: Resource, phase: Phase, ghost job: Job, ghost from: Phase)
      requires Here(c, job, from)
      requires Possible(cfg, Snapshot(), c, Proceed, Effect(calls[c].(phase := phase), Token.Give(r), Nothing))
      modifies this`calls, this`channels
      ensures Here(c, job, phase) && calls == old(calls)[c := old(calls)[c].(phase := phase)]
    {
      hide Arrived, Act, TokenFree, Possible;
      ArrivedStep(cfg, since, Snapshot(), c, Proceed, Effect(calls[c].(phase := phase), Token.Give(r), Nothing));
      if Length(r) > 0 {
        channels := channels[r := Length(r) - 1];
      }
      calls := calls[c := calls[c].(phase := phase)];
    }

    function Length(r: Resource): nat
      reads this
    {
      if r in channels then channels[r] else 0
    }

    // ------------------------------------------------------------- the ordering lock

    /** The call waits while others work, and then either has the lock or sees its context expire. */
    method AcquireOrdering(c: nat, key: Key, ghost job: Job) returns (ok: bool)
      requires ValidConfig(cfg) && job.Deliver? && job.key == key && Here(c, job, WaitOrder)
      modifies this
      ensures since == old(since) && ok == world(c).ordered
      ensures Here(c, job, if ok then CheckIdentity else Done(Failed))
    {
      ok := world(c).ordered;
      if ok {
        AwaitPlace(c, OrderLock(key), job, WaitOrder);
      } else {
        Others(c, job, WaitOrder);
      }
      hide Arrived, Act, TokenFree, Possible;
      ActOrder(cfg, Snapshot(), c);
      if ok {
        Take(c, OrderLock(key), CheckIdentity, job, WaitOrder);
      } else {
        Goto(c, GiveUp, Done(Failed), job, WaitOrder);
      }
    }

    /** Waits until there is a place in a channel.  Others work in the meantime for as long as they
        like; if it is still full then, those who have a place go on until one gives it back. */
    method AwaitPlace(c: nat, r: Resource, ghost job: Job, ghost phase: Phase)
      requires ValidConfig(cfg) && Here(c, job, phase) && Waits(calls[c]) && Wanted(calls[c]) == r
      modifies this
      ensures since == old(since) && c < |calls| && calls[c] == old(calls)[c]
      ensures Here(c, job, phase) && Tokens(Snapshot(), r) < Capacity(cfg, r)
    {
      Others(c, job, phase);
      hide Here, Snapshot, Tokens, Work, Waits, Wanted;
      LengthIs(r);
      while Length(r) >= Capacity(cfg, r)
        invariant Here(c, job, phase) && since == old(since) && c < |calls| && calls[c] == old(calls)[c]
        invariant Length(r) == Tokens(Snapshot(), r)
        decreases Work(cfg, calls)
      {
        SomeoneGoesOn(c, r, job, phase);
        LengthIs(r);
      }
    }

    lemma LengthIs(r: Resource)
      ensures Length(r) == Tokens(Snapshot(), r)
    {}

    method SomeoneGoesOn(c: nat, r: Resource, ghost job: Job, ghost phase: Phase)
      requires ValidConfig(cfg) && Here(c, job, phase) && Waits(calls[c]) && Wanted(calls[c]) == r
      requires Length(r) >= Capacity(cfg, r)
      modifies this
      ensures since == old(since) && Here(c, job, phase) && calls[c] == old(calls)[c]
      ensures Work(cfg, calls) < Work(cfg, old(calls))
    {
      var before := Snapshot();
      ArrivedIsReachable(cfg, since, before);
      LengthIs(r);
      hide Arrived, Reachable, Apply, Work, Waits, Wanted, Tokens;
      var d, m := NextMove(cfg, before, c);
      var after := Apply(cfg, before, Step(d, m)).value;
      ArrivedMore(cfg, since, before, Step(d, m));
      OtherStep(cfg, before, c, Step(d, m));
      StepWorks(cfg, before, Step(d, m));
      Adopt(after);
    }

    method ReleaseOrdering(c: nat, key: Key, result: Result, ghost job: Job)
      requires job.Deliver? && job.key == key && Here(c, job, Leave(result))
      modifies this
      ensures since == old(since)
      ensures Here(c, job, Done(result))
    {
      Others(c, job, Leave(result));
      hide Arrived, Act, TokenFree, Possible;
      ActLeave(cfg, Snapshot(), c);
      Give(c, OrderLock(key), Done(result), job, Leave(result));
    }

    // --------------------------------------------------------------- the producer id

    /** The call goes on with a producer id, or fails to get one. */
    method EnsureProducerID(c: nat, ghost job: Job) returns (ok: bool)
      requires ValidConfig(cfg) && job.Deliver? && Here(c, job, CheckIdentity)
      modifies this
      ensures since == old(since) && (!ok ==> !world(c).bootstraps || world(c).granted.None?)
      ensures Here(c, job, if ok then TakeIdentity else Leave(Failed))
    {
      Others(c, job, CheckIdentity);
      hide Arrived, Act, TokenFree, Possible;
      ActCheck(cfg, Snapshot(), c);
      if producerId >= 0 {
        Goto(c, Proceed, TakeIdentity, job, CheckIdentity);
        ok := true;
      } else {
        Goto(c, Proceed, WaitInit, job, CheckIdentity);
        ok := InitProducerID(c, job);
      }
    }

    method Adopt(s: State)
      modifies this
      ensures since == old(since)
      ensures Snapshot() == s
    {
      producerId, epoch, sequences, channels := s.producerId, s.epoch, s.sequences, s.tokens;
      calls, net, logs, ends, acks, acked := s.calls, s.net, s.logs, s.ends, s.acks, s.acked;
    }

    /** The double-checked initialisation under the mutex. */
    method InitProducerID(c: nat, ghost job: Job) returns (ok: bool)
      requires ValidConfig(cfg) && job.Deliver? && Here(c, job, WaitInit)
      modifies this
      ensures since == old(since) && (!ok ==> !world(c).bootstraps || world(c).granted.None?)
      ensures Here(c, job, if ok then TakeIdentity else Leave(Failed))
    {
      AwaitPlace(c, InitLock, job, WaitInit);
      hide Arrived, Act, TokenFree, Possible;
      ActLock(cfg, Snapshot(), c);
      Take(c, InitLock, Recheck, job, WaitInit);
      ok := CheckAgain(c, job);
      Others(c, job, LeaveInit(ok));
      ActUnlock(cfg, Snapshot(), c);
      Give(c, InitLock, if ok then TakeIdentity else Leave(Failed), job, LeaveInit(ok));
    }

    /** What is done inside the mutex: a second look, and the request if there still is no id. */
    method CheckAgain(c: nat, ghost job: Job) returns (ok: bool)
      requires job.Deliver? && Here(c, job, Recheck)
      modifies this
      ensures since == old(since) && (!ok ==> !world(c).bootstraps || world(c).granted.None?)
      ensures Here(c, job, LeaveInit(ok))
    {
      Others(c, job, Recheck);
      hide Arrived, Act, TokenFree, Possible;
      ActRecheck(cfg, Snapshot(), c);
      if producerId >= 0 {
        Goto(c, Proceed, LeaveInit(true), job, Recheck);
        return true;
      }
      if !world(c).bootstraps {
        Goto(c, GiveUp, LeaveInit(false), job, Recheck);
        return false;
      }
      Goto(c, Proceed, SendInit, job, Recheck);
      ok := RequestProducerID(c, job);
    }

    method RequestProducerID(c: nat, ghost job: Job) returns (ok: bool)
      requires job.Deliver? && Here(c, job, SendInit)
      modifies this
      ensures since == old(since) && Here(c, job, LeaveInit(ok)) && ok == world(c).granted.Some?
      ensures ok ==> producerId == world(c).granted.value.0 && epoch == world(c).granted.value.1
    {
      Others(c, job, SendInit);
      hide Arrived, Act, TokenFree, Possible;
      ok := world(c).granted.Some?;
      if ok {
        Adopted(c, world(c).granted.value.0, world(c).granted.value.1, job);
      } else {
        ActRequest(cfg, Snapshot(), c, 0, 0);
        Goto(c, Refused, LeaveInit(false), job, SendInit);
      }
    }

    /** The id that was granted becomes the client's. */
    method Adopted(c: nat, id: Int64, newEpoch: Int16, ghost job: Job)
      requires job.Deliver? && Here(c, job, SendInit)
      modifies this`producerId, this`epoch, this`calls
      ensures Here(c, job, LeaveInit(true)) && producerId == id && epoch == newEpoch
    {
      hide Arrived, Act, TokenFree, Possible;
      ActRequest(cfg, Snapshot(), c, id, newEpoch);
      ArrivedStep(cfg, since, Snapshot(), c, Granted(id, newEpoch),
              Effect(calls[c].(phase := LeaveInit(true)), Keep, SetIdentity(id, newEpoch)));
      producerId, epoch := id, newEpoch;
      calls := calls[c := calls[c].(phase := LeaveInit(true))];
    }

    method BatchIdentity(c: nat, key: Key, ghost job: Job) returns (id: Identity)
      requires job.Deliver? && job.key == key && Here(c, job, TakeIdentity)
      modifies this
      ensures since == old(since)
      ensures Holding(c, job, Route(1), id)
      ensures id == Identity(producerId, epoch, Sequence(Snapshot(), key))
    {
      Others(c, job, TakeIdentity);
      hide Arrived, Act, TokenFree, Possible;
      ActTake(cfg, Snapshot(), c);
      id := Identity(producerId, epoch, if key in sequences then sequences[key] else 0);
      ArrivedStep(cfg, since, Snapshot(), c, Proceed,
              Effect(calls[c].(phase := Route(1), identity := Some(id)), Keep, Nothing));
      calls := calls[c := calls[c].(phase := Route(1), identity := Some(id))];
    }

    method CommitSequence(c: nat, key: Key, count: nat, attempt: nat, offset: nat, ghost job: Job)
      requires job.Deliver? && job.key == key && count == |job.messages| && Here(c, job, Commit(attempt, offset))
      modifies this
      ensures since == old(since)
      ensures Here(c, job, Leave(Stored(offset)))
    {
      Others(c, job, Commit(attempt, offset));
      AdvanceSequence(c, key, count, attempt, offset, job);
    }

    /** The section itself: the key's counter moves by the number of records, as a 32-bit sum, and no
        other counter moves; the call joins the acknowledged ones. */
    method AdvanceSequence(c: nat, key: Key, count: nat, attempt: nat, offset: nat, ghost job: Job)
      requires job.Deliver? && job.key == key && count == |job.messages| && Here(c, job, Commit(attempt, offset))
      modifies this`sequences, this`acked, this`calls
      ensures Here(c, job, Leave(Stored(offset)))
      ensures sequences == old(sequences)[key := Cast32(old(Sequence(Snapshot(), key)) + count)]
      ensures acked == old(acked)[key := old(AckedCalls(Snapshot(), key)) + [c]]
    {
      hide Arrived, Act, TokenFree, Possible, Cast32, Carry;
      ActCommit(cfg, Snapshot(), c);
      ghost var next := calls[c].(phase := Leave(Stored(offset)));
      ArrivedStep(cfg, since, Snapshot(), c, Proceed, Effect(next, Keep, Advance(key, count)));
      CarryAdvance(Snapshot(), c, next, key, count);
      var before := if key in sequences then sequences[key] else 0;
      sequences := sequences[key := Cast32(before + count)];
      acked := acked[key := (if key in acked then acked[key] else []) + [c]];
      calls := calls[c := calls[c].(phase := Leave(Stored(offset)))];
    }

    // --------------------------------------------------------------- one attempt

    /** Route and batch of an attempt: the endpoint and the encoded batch, or nothing when there is
        no route or the batch cannot be encoded. */
    method Prepare(c: nat, key: Key, messages: seq<Message>, id: Identity, attempt: nat, ghost job: Job)
      returns (request: Option<(Endpoint, Bytes)>)
      requires job == Deliver(key, messages) && Holding(c, job, Route(attempt), id)
      modifies this
      ensures since == old(since)
      ensures var route := world(c).trials(attempt).route;
              if route.None? || !Accepted(messages) then request.None? && Here(c, job, Leave(Failed))
              else
                var batch := ProducerBatch(messages, id, route.value.leaderEpoch, route.value.now);
                && request == Some((route.value.endpoint, SetBytes([batch])))
                && Holding(c, job, WaitSlot(attempt, request.value.0, request.value.1), id)
    {
      Others(c, job, Route(attempt));
      hide Arrived, Act, TokenFree, Possible, ProducerBatch, SetBytes, WritableBatch, Accepted;
      var route := world(c).trials(attempt).route;
      var Target(endpoint, leaderEpoch, now) := if route.None? then Target("", 0, 0) else route.value;
      ActRoute(cfg, Snapshot(), c, endpoint, leaderEpoch, now);
      if route.None? {
        Goto(c, Unroutable, Leave(Failed), job, Route(attempt));
        return None;
      }
      var batch := ProducerBatch(messages, id, leaderEpoch, now);
      BatchAccepted(messages, id, leaderEpoch, now);
      var bytes := EncodeRecordBatchSet([batch]);
      if bytes.None? {
        Goto(c, Routed(endpoint, leaderEpoch, now), Leave(Failed), job, Route(attempt));
        return None;
      }
      Goto(c, Routed(endpoint, leaderEpoch, now), WaitSlot(attempt, endpoint, bytes.value), job, Route(attempt));
      request := Some((endpoint, bytes.value));
    }

    method AcquireInFlight(c: nat, attempt: nat, endpoint: Endpoint, bytes: Bytes, ghost job: Job, ghost id: Identity) returns (ok: bool)
      requires ValidConfig(cfg) && job.Deliver? && Holding(c, job, WaitSlot(attempt, endpoint, bytes), id)
      modifies this
      ensures since == old(since) && ok == world(c).trials(attempt).waits
      ensures Holding(c, job, if ok then Send(attempt, endpoint, bytes, cfg.framesPerSend) else Leave(Failed), id)
    {
      ok := world(c).trials(attempt).waits;
      if ok {
        AwaitPlace(c, Slot(endpoint), job, WaitSlot(attempt, endpoint, bytes));
      } else {
        Others(c, job, WaitSlot(attempt, endpoint, bytes));
      }
      hide Arrived, Act, TokenFree, Possible;
      ActSlot(cfg, Snapshot(), c);
      if ok {
        Take(c, Slot(endpoint), Send(attempt, endpoint, bytes, cfg.framesPerSend), job, WaitSlot(attempt, endpoint, bytes));
      } else {
        Goto(c, GiveUp, Leave(Failed), job, WaitSlot(attempt, endpoint, bytes));
      }
    }

    /** One protocol-level send: the request goes out up to `framesPerSend` times; then there is an
        answer, or an error. */
    method SendProduce(c: nat, key: Key, attempt: nat, endpoint: Endpoint, bytes: Bytes, ghost job: Job, ghost id: Identity)
      returns (answer: Answer)
      requires job.Deliver? && job.key == key && Holding(c, job, Send(attempt, endpoint, bytes, cfg.framesPerSend), id)
      modifies this
      ensures since == old(since) && Told(world(c).trials(attempt), answer)
      ensures Holding(c, job, LeaveSlot(attempt, endpoint, answer), id)
      ensures answer != world(c).trials(attempt).answer ==> Ack(c, attempt, world(c).trials(attempt).answer.offset) !in acks
      ensures calls[c].frames == old(calls[c].frames) + Fewer(world(c).trials(attempt).transmissions, cfg.framesPerSend)
    {
      hide Arrived, Act, TokenFree, Possible;
      var budget := cfg.framesPerSend;
      var left := Fewer(world(c).trials(attempt).transmissions, budget);
      Others(c, job, Send(attempt, endpoint, bytes, budget));
      while left > 0
        invariant left <= budget
        invariant Holding(c, job, Send(attempt, endpoint, bytes, budget), id) && since == old(since)
        invariant calls[c].frames + left == old(calls[c].frames) + Fewer(world(c).trials(attempt).transmissions, cfg.framesPerSend)
      {
        TransmitOnce(c, key, attempt, endpoint, bytes, budget, job, id);
        budget, left := budget - 1, left - 1;
        Others(c, job, Send(attempt, endpoint, bytes, budget));
      }
      answer := world(c).trials(attempt).answer;
      if answer.Acked? && Ack(c, attempt, answer.offset) !in acks {
        answer := Error(Transport, true);
      }
      ActAnswer(cfg, Snapshot(), c, answer);
      Goto(c, Answered(answer), LeaveSlot(attempt, endpoint, answer), job, Send(attempt, endpoint, bytes, budget));
    }

    method TransmitOnce(c: nat, key: Key, attempt: nat, endpoint: Endpoint, bytes: Bytes, budget: nat, ghost job: Job, ghost id: Identity)
      requires job.Deliver? && job.key == key && budget > 0 && Holding(c, job, Send(attempt, endpoint, bytes, budget), id)
      modifies this`calls, this`net
      ensures Holding(c, job, Send(attempt, endpoint, bytes, budget - 1), id)
      ensures calls[c].frames == old(calls[c].frames) + 1 && net == old(net) + [Frame(c, attempt, key, bytes)]
    {
      hide Arrived, Act, TokenFree, Possible;
      var frame := Frame(c, attempt, key, bytes);
      var next := calls[c].(phase := Send(attempt, endpoint, bytes, budget - 1), frames := calls[c].frames + 1);
      ActTransmit(cfg, Snapshot(), c);
      ArrivedStep(cfg, since, Snapshot(), c, Transmit, Effect(next, Keep, Emit(frame)));
      net := net + [frame];
      calls := calls[c := next];
    }

    method ReleaseInFlight(c: nat, attempt: nat, endpoint: Endpoint, answer: Answer, ghost job: Job, ghost id: Identity)
      requires job.Deliver? && Holding(c, job, LeaveSlot(attempt, endpoint, answer), id)
      modifies this
      ensures since == old(since)
      ensures Holding(c, job, AfterAnswer(cfg, attempt, answer), id)
    {
      Others(c, job, LeaveSlot(attempt, endpoint, answer));
      hide Arrived, Act, TokenFree, Possible, AfterAnswer;
      ActRelease(cfg, Snapshot(), c);
      Give(c, Slot(endpoint), AfterAnswer(cfg, attempt, answer), job, LeaveSlot(attempt, endpoint, answer));
    }

    method RetryBackoff(c: nat, attempt: nat, ghost job: Job, ghost id: Identity) returns (ok: bool)
      requires job.Deliver? && Holding(c, job, Backoff(attempt), id)
      modifies this
      ensures since == old(since) && ok == world(c).trials(attempt).rests
      ensures Holding(c, job, if ok then Route(attempt + 1) else Leave(Failed), id)
    {
      Others(c, job, Backoff(attempt));
      hide Arrived, Act, TokenFree, Possible;
      ActBackoff(cfg, Snapshot(), c);
      ok := world(c).trials(attempt).rests;
      if ok {
        Goto(c, Proceed, Route(attempt + 1), job, Backoff(attempt));
      } else {
        Goto(c, GiveUp, Leave(Failed), job, Backoff(attempt));
      }
    }

    // ------------------------------------------------------------------ the retry loop

    /** Up to `retryMaxAttempts` attempts under one identity. */
    method Attempts(c: nat, key: Key, messages: seq<Message>, id: Identity, ghost job: Job)
      returns (result: Result, ghost answers: seq<Answer>)
      requires ValidConfig(cfg) && job == Deliver(key, messages)
      requires Holding(c, job, Route(1), id)
      modifies this
      ensures since == old(since)
      ensures Here(c, job, Leave(result)) && Verdict(cfg.retryMaxAttempts, messages, world(c).trials, answers, result)
    {
      hide Here, Accepted, Transient;
      var attempt := 1;
      answers := [];
      while attempt <= cfg.retryMaxAttempts
        invariant 1 <= attempt <= cfg.retryMaxAttempts && |answers| == attempt - 1
        invariant Holding(c, job, Route(attempt), id) && since == old(since)
        invariant forall i :: 0 <= i < |answers| ==>
                                Asked(messages, world(c).trials, i, answers[i]) && Continues(world(c).trials, i, answers[i])
        decreases cfg.retryMaxAttempts - attempt
      {
        var request := Prepare(c, key, messages, id, attempt, job);
        if request.None? {
          return Failed, answers;
        }
        var (endpoint, bytes) := request.value;
        var free := AcquireInFlight(c, attempt, endpoint, bytes, job, id);
        if !free {
          return Failed, answers;
        }
        var answer := SendProduce(c, key, attempt, endpoint, bytes, job, id);
        answers := answers + [answer];
        assert Asked(messages, world(c).trials, attempt - 1, answer);
        ReleaseInFlight(c, attempt, endpoint, answer, job, id);
        AnswerDecides(cfg, attempt, answer);
        AnswerIsTransient(answer);
        if answer.Acked? {
          CommitSequence(c, key, |messages|, attempt, answer.offset, job);
          return Stored(answer.offset), answers;
        }
        if answer.UnexpectedBody? {
          return Failed, answers;
        }
        if answer.Error? {
          if !(attempt < cfg.retryMaxAttempts && ShouldRetryProduce(answer.failure, answer.expired)) {
            return Failed, answers;
          }
          var waited := RetryBackoff(c, attempt, job, id);
          if !waited {
            return Failed, answers;
          }
        } else if attempt == cfg.retryMaxAttempts {
          return Failed, answers;  // the response never named the partition
        }
        attempt := attempt + 1;
      }
      assert false;
    }

    lemma AnswerIsTransient(a: Answer)
      ensures a.Acked? || a.UnexpectedBody? ==> !Transient(a)
      ensures a.MissingPartition? ==> Transient(a)
      ensures a.Error? ==> (Transient(a) <==> ShouldRetryProduce(a.failure, a.expired))
    {}

    /** One delivery.  It returns with the outcome that the protocol records for its call, a new one,
        and that follows from what happened to the call; the metadata of an acknowledged batch gives
        record i the base offset plus i; and the client's state continues the one it was called in. */
    method ProduceRecords(key: Key, messages: seq<Message>)
      returns (c: nat, result: Result, metadata: seq<Metadata>, ghost answers: seq<Answer>)
      requires ValidConfig(cfg) && Reachable(cfg, Snapshot()) && messages != [] && Sized31(messages)
      modifies this
      ensures since == old(Snapshot()) && c == |since.calls| && Here(c, Deliver(key, messages), Done(result))
      ensures if result.Stored? then Numbered(metadata, key, result.offset, |messages|) else metadata == []
      ensures Unsent(world(c), result) || Verdict(cfg.retryMaxAttempts, messages, world(c).trials, answers, result)
    {
      var job := Deliver(key, messages);
      since := Snapshot();
      LaterSelf(since);
      hide Here, Holding, Sized31, Arrived, Snapshot, Numbered, Verdict;
      metadata, result, answers := [], Failed, [];
      c := Begin(job);
      var ordered := AcquireOrdering(c, key, job);
      if !ordered {
        return;
      }
      var known := EnsureProducerID(c, job);
      if known {
        var id := BatchIdentity(c, key, job);
        result, answers := Attempts(c, key, messages, id, job);
      }
      ReleaseOrdering(c, key, result, job);
      if result.Stored? {
        metadata := MetadataFromResponse(key, result.offset, |messages|);
      }
    }

    method Begin(job: Job) returns (c: nat)
      requires Arrived(cfg, since, Snapshot()) && Admitted(job)
      modifies this`calls
      ensures c == |old(Snapshot()).calls| && Here(c, job, First(job))
    {
      hide Arrived, Admitted;
      ArrivedMore(cfg, since, Snapshot(), Start(job));
      c := |calls|;
      calls := calls + [Call(job, First(job), None, 0)];
    }
  }

  // ------------------------------------------------ what the protocol allows in each phase

  lemma ActOrder(cfg: Config, s: State, c: nat)
    requires c < |s.calls| && s.calls[c].job.Deliver? && s.calls[c].phase.WaitOrder?
    ensures var lock := OrderLock(s.calls[c].job.key);
            Tokens(s, lock) < 1 ==>
              Possible(cfg, s, c, Proceed, Effect(s.calls[c].(phase := CheckIdentity), Take(lock), Nothing))
    ensures Possible(cfg, s, c, GiveUp, Effect(s.calls[c].(phase := Done(Failed)), Keep, Nothing))
  {
    hide ActLate;
  }

  lemma ActLeave(cfg: Config, s: State, c: nat)
    requires c < |s.calls| && s.calls[c].job.Deliver? && s.calls[c].phase.Leave?
    ensures var call := s.calls[c];
            Possible(cfg, s, c, Proceed,
                     Effect(call.(phase := Done(call.phase.result)), Give(OrderLock(call.job.key)), Nothing))
  {
    hide ActEarly;
  }

  lemma ActCheck(cfg: Config, s: State, c: nat)
    requires c < |s.calls| && s.calls[c].job.Deliver? && s.calls[c].phase.CheckIdentity?
    ensures Possible(cfg, s, c, Proceed,
                     Effect(s.calls[c].(phase := if s.producerId >= 0 then TakeIdentity else WaitInit), Keep, Nothing))
  {
    hide ActLate;
  }

  lemma ActLock(cfg: Config, s: State, c: nat)
    requires c < |s.calls| && s.calls[c].phase.WaitInit?
    ensures Tokens(s, InitLock) < 1 ==>
              Possible(cfg, s, c, Proceed, Effect(s.calls[c].(phase := Recheck), Take(InitLock), Nothing))
  {
    hide ActLate;
  }

  lemma ActRecheck(cfg: Config, s: State, c: nat)
    requires c < |s.calls| && s.calls[c].phase.Recheck?
    ensures Possible(cfg, s, c, Proceed,
                     Effect(s.calls[c].(phase := if s.producerId >= 0 then LeaveInit(true) else SendInit), Keep, Nothing))
    ensures s.producerId < 0 ==>
              Possible(cfg, s, c, GiveUp, Effect(s.calls[c].(phase := LeaveInit(false)), Keep, Nothing))
  {
    hide ActLate;
  }

  lemma ActUnlock(cfg: Config, s: State, c: nat)
    requires c < |s.calls| && s.calls[c].job.Deliver? && s.calls[c].phase.LeaveInit?
    ensures var next := if s.calls[c].phase.ok then TakeIdentity else Leave(Failed);
            Possible(cfg, s, c, Proceed, Effect(s.calls[c].(phase := next), Give(InitLock), Nothing))
  {
    hide ActLate;
  }

  lemma ActRequest(cfg: Config, s: State, c: nat, id: Int64, epoch: Int16)
    requires c < |s.calls| && s.calls[c].phase.SendInit?
    ensures Possible(cfg, s, c, Granted(id, epoch),
                     Effect(s.calls[c].(phase := LeaveInit(true)), Keep, SetIdentity(id, epoch)))
    ensures Possible(cfg, s, c, Refused, Effect(s.calls[c].(phase := LeaveInit(false)), Keep, Nothing))
  {
    hide ActLate;
  }

  lemma ActTake(cfg: Config, s: State, c: nat)
    requires c < |s.calls| && s.calls[c].job.Deliver? && s.calls[c].phase.TakeIdentity?
    ensures var id := Identity(s.producerId, s.epoch, Sequence(s, s.calls[c].job.key));
            Possible(cfg, s, c, Proceed, Effect(s.calls[c].(phase := Route(1), identity := Some(id)), Keep, Nothing))
  {
    hide ActLate;
  }

  lemma CarryAdvance(s: State, c: nat, next: Call, k: Key, n: nat)
    requires c < |s.calls|
    ensures Carry(s, c, Effect(next, Keep, Advance(k, n)))
         == s.(calls := s.calls[c := next], sequences := s.sequences[k := Cast32(Sequence(s, k) + n)],
               acked := s.acked[k := AckedCalls(s, k) + [c]])
  {}

  lemma ActCommit(cfg: Config, s: State, c: nat)
    requires c < |s.calls| && s.calls[c].job.Deliver? && s.calls[c].phase.Commit?
    ensures var call := s.calls[c];
            Possible(cfg, s, c, Proceed,
                     Effect(call.(phase := Leave(Stored(call.phase.offset))), Keep,
                            Advance(call.job.key, |call.job.messages|)))
  {
    hide ActEarly;
  }

  lemma BatchAccepted(messages: seq<Message>, id: Identity, leaderEpoch: Int32, now: Int64)
    ensures WritableBatch(ProducerBatch(messages, id, leaderEpoch, now)) <==> Accepted(messages)
  {
    var b := ProducerBatch(messages, id, leaderEpoch, now);
    hide Writable;
    assert forall i :: 0 <= i < |messages| ==> b.records[i] == ProtocolRecord(messages[i], i);
  }

  lemma ActRoute(cfg: Config, s: State, c: nat, endpoint: Endpoint, leaderEpoch: Int32, now: Int64)
    requires c < |s.calls| && s.calls[c].job.Deliver? && s.calls[c].phase.Route? && s.calls[c].identity.Some?
    ensures var call := s.calls[c];
            var bytes := SetBytes([ProducerBatch(call.job.messages, call.identity.value, leaderEpoch, now)]);
            && Possible(cfg, s, c, Unroutable, Effect(call.(phase := Leave(Failed)), Keep, Nothing))
            && Possible(cfg, s, c, Routed(endpoint, leaderEpoch, now),
                        Effect(call.(phase := if !Accepted(call.job.messages) then Leave(Failed)
                                              else WaitSlot(call.phase.attempt, endpoint, bytes)), Keep, Nothing))
  {
    hide ActEarly, Accepted, SetBytes, ProducerBatch;
  }

  lemma ActSlot(cfg: Config, s: State, c: nat)
    requires c < |s.calls| && s.calls[c].job.Deliver? && s.calls[c].phase.WaitSlot?
    ensures var call := s.calls[c];
            var p := call.phase;
            && (Tokens(s, Slot(p.endpoint)) < cfg.maxInFlight ==>
                  Possible(cfg, s, c, Proceed,
                           Effect(call.(phase := Send(p.attempt, p.endpoint, p.bytes, cfg.framesPerSend)),
                                  Take(Slot(p.endpoint)), Nothing)))
            && Possible(cfg, s, c, GiveUp, Effect(call.(phase := Leave(Failed)), Keep, Nothing))
  {
    hide ActEarly, Accepted, SetBytes, ProducerBatch;
  }

  lemma ActTransmit(cfg: Config, s: State, c: nat)
    requires c < |s.calls| && s.calls[c].job.Deliver? && s.calls[c].phase.Send? && s.calls[c].phase.budget > 0
    ensures var call := s.calls[c];
            var p := call.phase;
            Possible(cfg, s, c, Transmit,
                     Effect(call.(phase := p.(budget := p.budget - 1), frames := call.frames + 1), Keep,
                            Emit(Frame(c, p.attempt, call.job.key, p.bytes))))
  {
    hide ActEarly, Accepted, SetBytes, ProducerBatch;
  }

  lemma ActAnswer(cfg: Config, s: State, c: nat, answer: Answer)
    requires c < |s.calls| && s.calls[c].job.Deliver? && s.calls[c].phase.Send?
    requires answer.Acked? ==> Ack(c, s.calls[c].phase.attempt, answer.offset) in s.acks
    ensures var call := s.calls[c];
            Possible(cfg, s, c, Answered(answer),
                     Effect(call.(phase := LeaveSlot(call.phase.attempt, call.phase.endpoint, answer)), Keep, Nothing))
  {
    hide ActEarly, Accepted, SetBytes, ProducerBatch;
  }

  lemma ActRelease(cfg: Config, s: State, c: nat)
    requires c < |s.calls| && s.calls[c].job.Deliver? && s.calls[c].phase.LeaveSlot?
    ensures var call := s.calls[c];
            var p := call.phase;
            Possible(cfg, s, c, Proceed,
                     Effect(call.(phase := AfterAnswer(cfg, p.attempt, p.answer)), Give(Slot(p.endpoint)), Nothing))
  {
    hide ActEarly, Accepted, SetBytes, ProducerBatch, AfterAnswer;
  }

  lemma ActBackoff(cfg: Config, s: State, c: nat)
    requires c < |s.calls| && s.calls[c].job.Deliver? && s.calls[c].phase.Backoff?
    ensures var call := s.calls[c];
            && Possible(cfg, s, c, Proceed, Effect(call.(phase := Route(call.phase.attempt + 1)), Keep, Nothing))
            && Possible(cfg, s, c, GiveUp, Effect(call.(phase := Leave(Failed)), Keep, Nothing))
  {
    hide ActEarly, Accepted, SetBytes, ProducerBatch;
  }
}
