/** What never changes back in a run of the delivery protocol: the calls that have returned, the
    partition logs and the order of acknowledgements only grow. */
module DeliveryHistory {
  import opened Wrappers
  import opened Wire
  import opened RecordBatches
  import opened ProducerBatches
  import opened Delivery
  import opened DeliveryInvariant
  import opened DeliveryLedger
  import opened DeliveryRuns
  import opened DeliverySafety

  predicate LaterCall(before: Call, after: Call) {
    Grown(before, after) && (before.phase.Done? ==> after == before)
  }

  /** `t` continues the history of `s`. */
  ghost predicate Later(s: State, t: State) {
    && |s.calls| <= |t.calls| && (forall c :: 0 <= c < |s.calls| ==> LaterCall(s.calls[c], t.calls[c]))
    && forall k :: Log(s, k) <= Log(t, k) && AckedCalls(s, k) <= AckedCalls(t, k)
  }

  lemma LaterSelf(s: State)
    ensures Later(s, s)
  {}

  lemma LaterTwice(s: State, t: State, u: State)
    requires Later(s, t) && Later(t, u)
    ensures Later(s, u)
  {
    hide Log, AckedCalls, LaterCall;
    forall c | 0 <= c < |s.calls|
      ensures LaterCall(s.calls[c], u.calls[c])
    {
      LaterCallTwice(s.calls[c], t.calls[c], u.calls[c]);
    }
    forall k
      ensures Log(s, k) <= Log(u, k) && AckedCalls(s, k) <= AckedCalls(u, k)
    {
      PrefixTwice(Log(s, k), Log(t, k), Log(u, k));
      PrefixTwice(AckedCalls(s, k), AckedCalls(t, k), AckedCalls(u, k));
    }
  }

  lemma LaterCallTwice(a: Call, b: Call, c: Call)
    requires LaterCall(a, b) && LaterCall(b, c)
    ensures LaterCall(a, c)
  {}

  lemma PrefixTwice<T>(a: seq<T>, b: seq<T>, c: seq<T>)
    requires a <= b && b <= c
    ensures a <= c
  {}

  lemma StepIsLater(cfg: Config, s: State, c: nat, m: Move, e: Effect)
    requires Inv(cfg, s) && Possible(cfg, s, c, m, e)
    ensures Later(s, Carry(s, c, e))
  {
    InvCalls(cfg, s);
    PossibleFacts(cfg, s, c, m, e);
    NotReturned(cfg, s, c, m, e);
    CarryFields(s, c, e);
    hide Inv, Possible, CallsOk, Carry, Lawful, Shape, BytesOk, IdentityOk, TokenFollows, TokenFree, Grown;
    var t := Carry(s, c, e);
    forall d | 0 <= d < |s.calls|
      ensures LaterCall(s.calls[d], t.calls[d])
    {
      if d == c {
        StepExtends(s, c, e);
        ExtendsAt(s.calls, s.calls[c := e.call], c);
      } else {
        SameCall(s.calls[d]);
      }
    }
    assert forall k :: Log(t, k) == Log(s, k);
    hide Log, AckedCalls;
    forall k
      ensures AckedCalls(s, k) <= AckedCalls(t, k)
    {
      CarryAcked(s, c, e, k);
    }
  }

  lemma SameCall(call: Call)
    ensures LaterCall(call, call)
  {}

  /** A call that has returned takes no further step. */
  lemma NotReturned(cfg: Config, s: State, c: nat, m: Move, e: Effect)
    requires Possible(cfg, s, c, m, e)
    ensures !s.calls[c].phase.Done?
  {
    hide Accepted, ProducerBatch;
  }

  lemma BeginIsLater(s: State, job: Job)
    ensures Later(s, Begin(s, job))
  {
    var t := Begin(s, job);
    assert t == s.(calls := t.calls);
    hide LaterCall, Begin;
    forall c | 0 <= c < |s.calls|
      ensures LaterCall(s.calls[c], t.calls[c])
    {
      SameCall(s.calls[c]);
    }
  }

  lemma HandleIsLater(s: State, f: Frame)
    requires FrameOk(s.calls, f)
    ensures Later(s, Handle(s, f))
  {
    var b := HandleReads(s, f);
    StoreLeaves(s, f, b);
    StoreFacts(s, f, b);
    AppendFacts(s, f, b);
    var t := Store(s, f, b);
    assert forall k :: AckedCalls(t, k) == AckedCalls(s, k);
    hide Handle, Store, Append, Appends, Log, End, LaterCall, FrameOk, AckedCalls;
    forall c | 0 <= c < |s.calls|
      ensures LaterCall(s.calls[c], t.calls[c])
    {
      SameCall(s.calls[c]);
    }
  }

  lemma ApplyIsLater(cfg: Config, s: State, l: Label)
    requires Inv(cfg, s) && Apply(cfg, s, l).Some?
    ensures Later(s, Apply(cfg, s, l).value)
  {
    match l {
      case Start(job) =>
        hide Later, Begin;
        BeginIsLater(s, job);
      case Step(c, m) =>
        hide Inv, Act, Carry, Later;
        var e := Act(cfg, s, c, s.calls[c], m).value;
        assert Possible(cfg, s, c, m, e);
        StepIsLater(cfg, s, c, m, e);
      case Receive(i) =>
        InvCalls(cfg, s);
        FrameAt(s, i);
        hide Inv, Handle, Later;
        HandleIsLater(s, s.net[i]);
      case Foreign(k, n) =>
        hide Inv;
    }
  }

  /** A run of the protocol has come to `s`, by way of `since`. */
  ghost predicate Arrived(cfg: Config, since: State, s: State) {
    Reachable(cfg, s) && Later(since, s)
  }

  lemma ArrivedMore(cfg: Config, since: State, s: State, l: Label)
    requires Arrived(cfg, since, s) && Apply(cfg, s, l).Some?
    ensures Arrived(cfg, since, Apply(cfg, s, l).value)
  {
    ReachableHolds(cfg, s);
    hide Reachable, Apply, Inv, Later;
    OneMore(cfg, s, l);
    ApplyIsLater(cfg, s, l);
    LaterTwice(since, s, Apply(cfg, s, l).value);
  }

  lemma ArrivedStep(cfg: Config, since: State, s: State, c: nat, m: Move, e: Effect)
    requires Arrived(cfg, since, s) && Possible(cfg, s, c, m, e)
    ensures Arrived(cfg, since, Carry(s, c, e))
  {
    hide Act, Arrived, Carry, TokenFree;
    ArrivedMore(cfg, since, s, Step(c, m));
  }
}
