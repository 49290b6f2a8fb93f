/** The delivery protocol neither deadlocks nor goes on for ever: while a call is unfinished some
    call can move without waiting for a timeout, and every call takes boundedly many steps and
    transmits boundedly many requests. */
module DeliveryProgress {
  import opened Wrappers
  import opened Wire
  import opened RecordBatches
  import opened RecordBatchSets
  import opened ProducerBatches
  import opened Delivery
  import opened DeliveryInvariant
  import opened DeliveryLedger
  import opened DeliveryRuns
  import opened DeliverySafety

  // -------------------------------------------------------------------- no deadlock

  /** Call `c` can take a step that no context expiry is needed for. */
  ghost predicate CanMove(cfg: Config, s: State, c: nat) {
    exists m: Move :: !m.GiveUp? && !m.Transmit? && Apply(cfg, s, Step(c, m)).Some?
  }

  /** A call that waits for neither a lock nor a slot can move, whatever the network answers. */
  lemma UnblockedMoves(cfg: Config, s: State, c: nat)
    requires c < |s.calls| && Shape(s.calls[c]) && !s.calls[c].phase.Done?
    requires !s.calls[c].phase.WaitOrder? && !s.calls[c].phase.WaitInit? && !s.calls[c].phase.WaitSlot?
    ensures CanMove(cfg, s, c)
  {
    hide Handle, Accepted, SetBytes, ProducerBatch, ShouldRetryProduce, Sized31, MoveToken;
    var p := s.calls[c].phase;
    var m := if p.SendInit? then Refused else if p.Route? then Unroutable
             else if p.Send? then Answered(UnexpectedBody) else Proceed;
    assert Apply(cfg, s, Step(c, m)).Some?;
  }

  /** What a waiting call waits for. */
  function Wanted(call: Call): (r: Resource)
    requires call.phase.WaitInit? || call.phase.WaitSlot? || (call.phase.WaitOrder? && call.job.Deliver?)
  {
    match call.phase
    case WaitOrder => OrderLock(call.job.key)
    case WaitInit => InitLock
    case WaitSlot(_, e, _) => Slot(e)
  }

  lemma WaiterMoves(cfg: Config, s: State, c: nat)
    requires c < |s.calls| && Shape(s.calls[c])
    requires s.calls[c].phase.WaitInit? || s.calls[c].phase.WaitSlot? || s.calls[c].phase.WaitOrder?
    requires Tokens(s, Wanted(s.calls[c])) < Capacity(cfg, Wanted(s.calls[c]))
    ensures CanMove(cfg, s, c)
  {
    hide Handle, Accepted, SetBytes, ProducerBatch, ShouldRetryProduce, Sized31, MoveToken;
    assert Apply(cfg, s, Step(c, Proceed)).Some?;
  }

  /** The call itself can move, or a call that holds what it waits for can, or one that holds what
      that one waits for. */
  lemma SomeoneMoves(cfg: Config, s: State, c: nat) returns (d: nat)
    requires ValidConfig(cfg) && TokensCounted(cfg, s) && CallsOk(s)
    requires c < |s.calls| && !s.calls[c].phase.Done?
    ensures d < |s.calls| && !s.calls[d].phase.Done? && CanMove(cfg, s, d)
    decreases if s.calls[c].phase.WaitOrder? then 1 else 0
  {
    hide TokensCounted, CanMove, BytesOk, IdentityOk, AnswerOk;
    var call := s.calls[c];
    assert Shape(call);
    if call.phase.WaitOrder? || call.phase.WaitInit? || call.phase.WaitSlot? {
      var r := Wanted(call);
      TokensAt(cfg, s, r);
      if Tokens(s, r) < Capacity(cfg, r) {
        WaiterMoves(cfg, s, c);
        d := c;
      } else {
        var h := HolderExists(s.calls, r);
        if call.phase.WaitOrder? {
          d := SomeoneMoves(cfg, s, h);
        } else {
          assert Shape(s.calls[h]);
          UnblockedMoves(cfg, s, h);
          d := h;
        }
      }
    } else {
      UnblockedMoves(cfg, s, c);
      d := c;
    }
  }

  lemma TokensAt(cfg: Config, s: State, r: Resource)
    requires TokensCounted(cfg, s)
    ensures Tokens(s, r) == Holders(s.calls, r) <= Capacity(cfg, r)
  {}

  /** No reachable state with an unfinished call is stuck. */
  lemma NoDeadlock(cfg: Config, s: State, c: nat)
    requires ValidConfig(cfg) && Reachable(cfg, s) && c < |s.calls| && !s.calls[c].phase.Done?
    ensures exists d :: 0 <= d < |s.calls| && CanMove(cfg, s, d)
  {
    ReachableHolds(cfg, s);
    InvCalls(cfg, s);
    hide Inv, Reachable, CanMove;
    var d := SomeoneMoves(cfg, s, c);
  }

  // -------------------------------------------------------------------- bounded work

  /** Attempts stay within the limit, and requests within `framesPerSend` for each attempt. */
  predicate Budgeted(cfg: Config, call: Call) {
    match call.phase
    case Route(a) => 1 <= a <= cfg.retryMaxAttempts && call.frames <= (a - 1) * cfg.framesPerSend
    case WaitSlot(a, _, _) => 1 <= a <= cfg.retryMaxAttempts && call.frames <= (a - 1) * cfg.framesPerSend
    case Send(a, _, _, budget) =>
      1 <= a <= cfg.retryMaxAttempts && budget <= cfg.framesPerSend
      && call.frames + budget <= a * cfg.framesPerSend
    case LeaveSlot(a, _, _) => 1 <= a <= cfg.retryMaxAttempts && call.frames <= a * cfg.framesPerSend
    case Backoff(a) => 1 <= a < cfg.retryMaxAttempts && call.frames <= a * cfg.framesPerSend
    case Commit(a, _) => 1 <= a <= cfg.retryMaxAttempts && call.frames <= a * cfg.framesPerSend
    case Leave(_) => call.frames <= cfg.retryMaxAttempts * cfg.framesPerSend
    case Done(_) => call.frames <= cfg.retryMaxAttempts * cfg.framesPerSend
    case _ => call.frames == 0
  }

  lemma Times(a: nat, b: nat, n: nat)
    requires a <= b
    ensures a * n <= b * n && (a + 1) * n == a * n + n
  {}

  lemma BudgetKept(cfg: Config, s: State, c: nat, call: Call, m: Move)
    requires ValidConfig(cfg) && Budgeted(cfg, call) && Act(cfg, s, c, call, m).Some?
    ensures Budgeted(cfg, Act(cfg, s, c, call, m).value.call)
  {
    if Early(call.phase) {
      hide ActLate;
      NoNegative(cfg.retryMaxAttempts, cfg.framesPerSend);
    } else {
      hide ActEarly, ActLate;
      BudgetKeptLate(cfg, s, c, call, m);
    }
  }

  lemma BudgetKeptLate(cfg: Config, s: State, c: nat, call: Call, m: Move)
    requires ValidConfig(cfg) && Budgeted(cfg, call) && ActLate(cfg, s, c, call, m).Some?
    ensures Budgeted(cfg, ActLate(cfg, s, c, call, m).value.call)
  {
    hide Accepted, SetBytes, ProducerBatch, ShouldRetryProduce;
    BudgetBound(cfg, call);
    if call.phase.WaitSlot? {
      Times(call.phase.attempt - 1, cfg.retryMaxAttempts, cfg.framesPerSend);
    }
  }

  /** The requests of call `c` among the transmitted ones. */
  function FramesOf(net: seq<Frame>, c: nat): nat {
    if net == [] then 0 else FramesOf(net[..|net| - 1], c) + (if net[|net| - 1].call == c then 1 else 0)
  }

  ghost predicate Counted(cfg: Config, s: State) {
    && (forall c :: 0 <= c < |s.calls| ==> Budgeted(cfg, s.calls[c]) && s.calls[c].frames == FramesOf(s.net, c))
    && (forall i :: 0 <= i < |s.net| ==> s.net[i].call < |s.calls|)
  }

  lemma {:induction false} FramesOfNobody(net: seq<Frame>, c: nat)
    requires forall i :: 0 <= i < |net| ==> net[i].call != c
    ensures FramesOf(net, c) == 0
  {
    if net != [] {
      FramesOfNobody(net[..|net| - 1], c);
    }
  }

  lemma CountedByStep(cfg: Config, s: State, c: nat, m: Move, e: Effect)
    requires ValidConfig(cfg) && CallsOk(s) && Counted(cfg, s) && Possible(cfg, s, c, m, e)
    ensures Counted(cfg, Carry(s, c, e))
  {
    BudgetKept(cfg, s, c, s.calls[c], m);
    PossibleFacts(cfg, s, c, m, e);
    CarryFields(s, c, e);
    hide Act, Possible, Carry, Budgeted, CallsOk, Shape, BytesOk, IdentityOk, TokenFollows, TokenFree;
    var t := Carry(s, c, e);
    forall d | 0 <= d < |t.calls|
      ensures Budgeted(cfg, t.calls[d]) && t.calls[d].frames == FramesOf(t.net, d)
    {
      if e.change.Emit? {
        assert t.net[..|s.net|] == s.net;
      }
    }
  }

  lemma CountedByStart(cfg: Config, s: State, job: Job)
    requires Counted(cfg, s)
    ensures Counted(cfg, Begin(s, job))
  {
    FramesOfNobody(s.net, |s.calls|);
    hide FramesOf;
  }

  lemma CountedByHandle(cfg: Config, s: State, i: nat)
    requires FramesOk(s) && Counted(cfg, s) && i < |s.net|
    ensures Counted(cfg, Handle(s, s.net[i]))
  {
    FrameAt(s, i);
    hide Handle, Store, Budgeted, FrameOk, FramesOf;
    var b := HandleReads(s, s.net[i]);
    StoreLeaves(s, s.net[i], b);
  }

  lemma CountedByApply(cfg: Config, s: State, l: Label)
    requires ValidConfig(cfg) && Inv(cfg, s) && Counted(cfg, s) && Apply(cfg, s, l).Some?
    ensures Counted(cfg, Apply(cfg, s, l).value)
  {
    InvCalls(cfg, s);
    match l {
      case Start(job) =>
        hide Inv, Counted, Begin;
        CountedByStart(cfg, s, job);
      case Step(c, m) =>
        hide Inv, Counted, Act, Carry;
        var e := Act(cfg, s, c, s.calls[c], m).value;
        assert Possible(cfg, s, c, m, e);
        CountedByStep(cfg, s, c, m, e);
      case Receive(i) =>
        hide Inv, Counted, Handle;
        CountedByHandle(cfg, s, i);
      case Foreign(k, n) =>
        hide Inv, Budgeted, FramesOf, End;
    }
  }

  lemma {:induction false} RunCounts(cfg: Config, producerId: Int64, epoch: Int16, labels: seq<Label>)
    requires ValidConfig(cfg) && Run(cfg, Initial(producerId, epoch), labels).Some?
    ensures Counted(cfg, Run(cfg, Initial(producerId, epoch), labels).value)
  {
    hide Inv, Apply;
    if labels != [] {
      var before := Run(cfg, Initial(producerId, epoch), labels[..|labels| - 1]).value;
      RunKeeps(cfg, producerId, epoch, labels[..|labels| - 1]);
      RunCounts(cfg, producerId, epoch, labels[..|labels| - 1]);
      CountedByApply(cfg, before, labels[|labels| - 1]);
    }
  }

  /** One batch is transmitted at most twice the attempt limit of the protocol client in each of at
      most `retryMaxAttempts` attempts. */
  lemma RequestsAreBounded(cfg: Config, s: State, c: nat)
    requires ValidConfig(cfg) && Reachable(cfg, s)
    ensures FramesOf(s.net, c) <= 2 * cfg.retryMaxAttempts * cfg.maxAttempts
  {
    var producerId, epoch, labels :| Run(cfg, Initial(producerId, epoch), labels) == Some(s);
    RunCounts(cfg, producerId, epoch, labels);
    hide Run, Initial, Reachable;
    if c < |s.calls| {
      var call := s.calls[c];
      assert Budgeted(cfg, call);
      BudgetBound(cfg, call);
    } else {
      FramesOfNobody(s.net, c);
      NoNegative(cfg.retryMaxAttempts, cfg.framesPerSend);
    }
    Twice(cfg.retryMaxAttempts, cfg.maxAttempts);
  }

  lemma Twice(a: nat, b: nat)
    ensures a * (2 * b) == 2 * a * b
  {}

  lemma NoNegative(a: nat, b: nat)
    ensures a * b >= 0
  {}

  lemma BudgetBound(cfg: Config, call: Call)
    requires ValidConfig(cfg) && Budgeted(cfg, call)
    ensures call.frames <= cfg.retryMaxAttempts * cfg.framesPerSend
  {
    match call.phase {
      case Route(a) => Times(a - 1, cfg.retryMaxAttempts, cfg.framesPerSend);
      case WaitSlot(a, _, _) => Times(a - 1, cfg.retryMaxAttempts, cfg.framesPerSend);
      case Send(a, _, _, _) => Times(a, cfg.retryMaxAttempts, cfg.framesPerSend);
      case LeaveSlot(a, _, _) => Times(a, cfg.retryMaxAttempts, cfg.framesPerSend);
      case Backoff(a) => Times(a, cfg.retryMaxAttempts, cfg.framesPerSend);
      case Commit(a, _) => Times(a, cfg.retryMaxAttempts, cfg.framesPerSend);
      case _ => NoNegative(cfg.retryMaxAttempts, cfg.framesPerSend);
    }
  }

  // ----------------------------------------------------------------- no endless retry

  /** The most steps one attempt takes: routing, the slot, every transmission, the answer, giving
      back the slot, the backoff. */
  function AttemptSteps(cfg: Config): nat { 5 + cfg.framesPerSend }

  function Remaining(cfg: Config, attempt: nat): nat {
    if attempt >= cfg.retryMaxAttempts then 0 else (cfg.retryMaxAttempts - attempt) * AttemptSteps(cfg)
  }

  /** An upper bound on the steps a call can still take. */
  function Rank(cfg: Config, call: Call): nat {
    var b := cfg.framesPerSend;
    match call.phase
    case WaitOrder => 14 + b + Remaining(cfg, 1)
    case CheckIdentity => 13 + b + Remaining(cfg, 1)
    case WaitInit => 12 + b + Remaining(cfg, 1)
    case Recheck => 11 + b + Remaining(cfg, 1)
    case SendInit => 10 + b + Remaining(cfg, 1)
    case LeaveInit(_) => 9 + b + Remaining(cfg, 1)
    case TakeIdentity => 8 + b + Remaining(cfg, 1)
    case Route(a) => 7 + b + Remaining(cfg, a)
    case WaitSlot(a, _, _) => 6 + b + Remaining(cfg, a)
    case Send(a, _, _, n) => 5 + n + Remaining(cfg, a)
    case LeaveSlot(a, _, _) => 4 + Remaining(cfg, a)
    case Backoff(a) => 3 + Remaining(cfg, a)
    case Commit(_, _) => 2
    case Leave(_) => 1
    case Done(_) => 0
  }

  lemma RemainingDrops(cfg: Config, a: nat)
    requires a < cfg.retryMaxAttempts
    ensures Remaining(cfg, a + 1) + AttemptSteps(cfg) == Remaining(cfg, a)
  {
    Times(cfg.retryMaxAttempts - a - 1, cfg.retryMaxAttempts, AttemptSteps(cfg));
  }

  lemma RankDrops(cfg: Config, s: State, c: nat, call: Call, m: Move)
    requires Budgeted(cfg, call) && Act(cfg, s, c, call, m).Some?
    ensures Rank(cfg, Act(cfg, s, c, call, m).value.call) < Rank(cfg, call)
  {
    if Early(call.phase) {
      hide ActLate, Remaining;
    } else {
      hide ActEarly, ActLate;
      RankDropsLate(cfg, s, c, call, m);
    }
  }

  lemma RankDropsLate(cfg: Config, s: State, c: nat, call: Call, m: Move)
    requires Budgeted(cfg, call) && ActLate(cfg, s, c, call, m).Some?
    ensures Rank(cfg, ActLate(cfg, s, c, call, m).value.call) < Rank(cfg, call)
  {
    if (call.phase.LeaveSlot? || call.phase.Backoff?) && call.phase.attempt < cfg.retryMaxAttempts {
      RemainingDrops(cfg, call.phase.attempt);
    }
    hide Accepted, SetBytes, ProducerBatch, ShouldRetryProduce, Remaining;
  }

  function Work(cfg: Config, calls: seq<Call>): nat {
    if calls == [] then 0 else Work(cfg, calls[..|calls| - 1]) + Rank(cfg, calls[|calls| - 1])
  }

  lemma {:induction false} WorkUpdate(cfg: Config, calls: seq<Call>, c: nat, call: Call)
    requires c < |calls|
    ensures Work(cfg, calls[c := call]) + Rank(cfg, calls[c]) == Work(cfg, calls) + Rank(cfg, call)
  {
    hide Rank;
    var n := |calls| - 1;
    if c == n {
      assert calls[c := call][..n] == calls[..n];
    } else {
      assert calls[c := call][..n] == calls[..n][c := call];
      WorkUpdate(cfg, calls[..n], c, call);
    }
  }

  function Starts(labels: seq<Label>): nat {
    if labels == [] then 0
    else Starts(labels[..|labels| - 1]) + (if labels[|labels| - 1].Start? then 1 else 0)
  }

  function Steps(labels: seq<Label>): nat {
    if labels == [] then 0
    else Steps(labels[..|labels| - 1]) + (if labels[|labels| - 1].Step? then 1 else 0)
  }

  /** The steps of a whole call at most. */
  function CallSteps(cfg: Config): nat { 14 + cfg.framesPerSend + Remaining(cfg, 1) }

  lemma WorkOfLabel(cfg: Config, s: State, l: Label)
    requires ValidConfig(cfg) && Inv(cfg, s) && Counted(cfg, s) && Apply(cfg, s, l).Some?
    ensures var t := Apply(cfg, s, l).value;
            Work(cfg, t.calls) + (if l.Step? then 1 else 0)
            <= Work(cfg, s.calls) + (if l.Start? then CallSteps(cfg) else 0)
  {
    match l {
      case Start(job) =>
        assert Begin(s, job).calls[..|s.calls|] == s.calls;
      case Step(c, m) =>
        RankDrops(cfg, s, c, s.calls[c], m);
        hide Inv, Counted, Act, Rank;
        var e := Act(cfg, s, c, s.calls[c], m).value;
        CarryFields(s, c, e);
        hide Carry;
        WorkUpdate(cfg, s.calls, c, e.call);
      case Receive(i) =>
        InvCalls(cfg, s);
        FrameAt(s, i);
        hide Inv, Handle, Work;
        var b := HandleReads(s, s.net[i]);
        StoreLeaves(s, s.net[i], b);
      case Foreign(k, n) =>
    }
  }

  /** A step of a call leaves less to do. */
  lemma StepWorks(cfg: Config, s: State, l: Label)
    requires ValidConfig(cfg) && Reachable(cfg, s) && l.Step? && Apply(cfg, s, l).Some?
    ensures Work(cfg, Apply(cfg, s, l).value.calls) < Work(cfg, s.calls)
  {
    var producerId, epoch, labels :| Run(cfg, Initial(producerId, epoch), labels) == Some(s);
    RunCounts(cfg, producerId, epoch, labels);
    ReachableHolds(cfg, s);
    hide Inv, Counted, Apply, Run, Work, Reachable;
    WorkOfLabel(cfg, s, l);
  }

  /** In every run the calls that were started take boundedly many steps together; what is left of
      the bound still suffices for the calls that are unfinished. */
  lemma {:induction false} EveryCallEnds(cfg: Config, producerId: Int64, epoch: Int16, labels: seq<Label>)
    requires ValidConfig(cfg) && Run(cfg, Initial(producerId, epoch), labels).Some?
    ensures var s := Run(cfg, Initial(producerId, epoch), labels).value;
            Steps(labels) + Work(cfg, s.calls) <= Starts(labels) * CallSteps(cfg)
  {
    hide Inv, Apply, Counted, Rank, CallSteps;
    if labels != [] {
      var n := |labels| - 1;
      var before := Run(cfg, Initial(producerId, epoch), labels[..n]).value;
      RunKeeps(cfg, producerId, epoch, labels[..n]);
      RunCounts(cfg, producerId, epoch, labels[..n]);
      EveryCallEnds(cfg, producerId, epoch, labels[..n]);
      WorkOfLabel(cfg, before, labels[n]);
      Times(Starts(labels[..n]), Starts(labels), CallSteps(cfg));
    }
  }
}
