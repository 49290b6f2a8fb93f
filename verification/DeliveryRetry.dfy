/** The other side of the retry limits: whatever passing failures a call meets before its last attempt,
    it can still end with its batch stored. */
module DeliveryRetry {
  import opened Wrappers
  import opened Wire
  import opened RecordBatches
  import opened RecordBatchSets
  import opened ProducerBatches
  import opened Delivery
  import opened DeliveryInvariant
  import opened DeliveryLedger
  import opened DeliveryRuns
  import opened DeliverySafety
  import opened DeliveryLoss
  import opened Producer

  /** The answers that call `c` got in a run. */
  function Given(labels: seq<Label>, c: nat): seq<Answer> {
    if labels == [] then []
    else
      var l := labels[|labels| - 1];
      Given(labels[..|labels| - 1], c)
      + (if l.Step? && l.call == c && l.move.Answered? then [l.move.answer] else [])
  }

  /** The labels lead from `s` to `t`, and call `c` got these answers on the way. */
  ghost predicate Leads(cfg: Config, s: State, labels: seq<Label>, t: State, c: nat, answers: seq<Answer>) {
    Run(cfg, s, labels) == Some(t) && Given(labels, c) == answers && Reachable(cfg, t)
  }

  lemma OneLabel(cfg: Config, s: State, labels: seq<Label>, t: State, c: nat, answers: seq<Answer>, l: Label)
    requires Leads(cfg, s, labels, t, c, answers) && Apply(cfg, t, l).Some?
    ensures var more := if l.Step? && l.call == c && l.move.Answered? then [l.move.answer] else [];
            Leads(cfg, s, labels + [l], Apply(cfg, t, l).value, c, answers + more)
  {
    OneMore(cfg, t, l);
    hide Apply, Reachable;
    assert (labels + [l])[..|labels|] == labels;
  }

  /** Another step of call `c`. */
  lemma Further(cfg: Config, s0: State, labels: seq<Label>, s: State, c: nat, answers: seq<Answer>, m: Move, e: Effect)
    returns (more: seq<Label>, t: State)
    requires Leads(cfg, s0, labels, s, c, answers) && Possible(cfg, s, c, m, e) && !e.change.SetIdentity?
    ensures Leads(cfg, s0, more, t, c, if m.Answered? then answers + [m.answer] else answers)
    ensures t.calls == s.calls[c := e.call] && t.tokens == MoveToken(s, e.token)
    ensures t.acks == s.acks && t.logs == s.logs && t.ends == s.ends
    ensures t.net == if e.change.Emit? then s.net + [e.change.frame] else s.net
  {
    LeadsHere(cfg, s0, labels, s, c, answers);
    hide Reachable, Possible, Act, MoveToken, Leads, Apply;
    t := Go(cfg, s, c, m, e);
    more := labels + [Step(c, m)];
    OneLabel(cfg, s0, labels, s, c, answers, Step(c, m));
    assert answers + [] == answers;
  }

  lemma LeadsHere(cfg: Config, s0: State, labels: seq<Label>, s: State, c: nat, answers: seq<Answer>)
    requires Leads(cfg, s0, labels, s, c, answers)
    ensures Reachable(cfg, s)
  {}

  /** A delivering call at the start of an attempt, whose batch can be encoded. */
  predicate AtAttempt(s: State, c: nat, attempt: nat) {
    && c < |s.calls| && s.calls[c].job.Deliver? && s.calls[c].phase == Route(attempt)
    && s.calls[c].identity.Some? && Accepted(s.calls[c].job.messages)
  }

  /** Nothing but call `c` differs. */
  ghost predicate Else(s: State, t: State, c: nat) {
    && c < |s.calls| && |t.calls| == |s.calls| && t.calls == s.calls[c := t.calls[c]]
    && t.acks == s.acks && t.logs == s.logs && t.ends == s.ends && t.net == s.net
    && forall r :: Tokens(t, r) == Tokens(s, r)
  }

  /** The attempt takes a place and waits for its answer. */
  lemma Occupies(cfg: Config, s0: State, labels: seq<Label>, s: State, c: nat, answers: seq<Answer>, a: nat, e: Endpoint)
    returns (more: seq<Label>, t: State, bytes: Bytes)
    requires Leads(cfg, s0, labels, s, c, answers) && AtAttempt(s, c, a) && Tokens(s, Slot(e)) < cfg.maxInFlight
    ensures Leads(cfg, s0, more, t, c, answers)
    ensures t.calls == s.calls[c := s.calls[c].(phase := Send(a, e, bytes, cfg.framesPerSend))]
    ensures t.acks == s.acks && t.logs == s.logs && t.ends == s.ends && t.net == s.net
    ensures t.tokens == s.tokens[Slot(e) := Tokens(s, Slot(e)) + 1]
  {
    hide Leads, Possible, Accepted, SetBytes, ProducerBatch;
    bytes := SetBytes([ProducerBatch(s.calls[c].job.messages, s.calls[c].identity.value, 0, 0)]);
    ActRoute(cfg, s, c, e, 0, 0);
    var l1, s1 := Further(cfg, s0, labels, s, c, answers, Routed(e, 0, 0),
                          Effect(s.calls[c].(phase := WaitSlot(a, e, bytes)), Keep, Nothing));
    ActSlot(cfg, s1, c);
    more, t := Further(cfg, s0, l1, s1, c, answers, Proceed,
                       Effect(s1.calls[c].(phase := Send(a, e, bytes, cfg.framesPerSend)), Take(Slot(e)), Nothing));
  }

  /** It is answered, and gives the place back. */
  lemma Vacates(cfg: Config, s0: State, labels: seq<Label>, s: State, c: nat, answers: seq<Answer>, answer: Answer)
    returns (more: seq<Label>, t: State)
    requires Leads(cfg, s0, labels, s, c, answers)
    requires c < |s.calls| && s.calls[c].job.Deliver? && s.calls[c].phase.Send?
    requires Tokens(s, Slot(s.calls[c].phase.endpoint)) > 0
    requires answer.Acked? ==> Ack(c, s.calls[c].phase.attempt, answer.offset) in s.acks
    ensures Leads(cfg, s0, more, t, c, answers + [answer])
    ensures t.calls == s.calls[c := s.calls[c].(phase := AfterAnswer(cfg, s.calls[c].phase.attempt, answer))]
    ensures t.acks == s.acks && t.logs == s.logs && t.ends == s.ends && t.net == s.net
    ensures var r := Slot(s.calls[c].phase.endpoint); t.tokens == s.tokens[r := Tokens(s, r) - 1]
  {
    hide Leads, Possible, AfterAnswer;
    var e, a := s.calls[c].phase.endpoint, s.calls[c].phase.attempt;
    ActAnswer(cfg, s, c, answer);
    var l1, s1 := Further(cfg, s0, labels, s, c, answers, Answered(answer),
                          Effect(s.calls[c].(phase := LeaveSlot(a, e, answer)), Keep, Nothing));
    ActRelease(cfg, s1, c);
    more, t := Further(cfg, s0, l1, s1, c, answers + [answer], Proceed,
                       Effect(s1.calls[c].(phase := AfterAnswer(cfg, a, answer)), Give(Slot(e)), Nothing));
  }

  /** A passing failure leads to the next attempt. */
  lemma Fails(cfg: Config, s0: State, labels: seq<Label>, s: State, c: nat, answers: seq<Answer>, a: nat, e: Endpoint,
              failure: Answer)
    returns (more: seq<Label>, t: State)
    requires Leads(cfg, s0, labels, s, c, answers) && AtAttempt(s, c, a) && Tokens(s, Slot(e)) < cfg.maxInFlight
    requires a < cfg.retryMaxAttempts && Transient(failure)
    ensures Leads(cfg, s0, more, t, c, answers + [failure]) && AtAttempt(t, c, a + 1) && Else(s, t, c)
    ensures t.calls[c] == s.calls[c].(phase := Route(a + 1))
  {
    hide Leads, Possible, Accepted, AfterAnswer;
    var l1, s1, bytes := Occupies(cfg, s0, labels, s, c, answers, a, e);
    var l2, s2 := Vacates(cfg, s0, l1, s1, c, answers, failure);
    AnswerDecides(cfg, a, failure);
    if failure.MissingPartition? {
      more, t := l2, s2;
    } else {
      ActBackoff(cfg, s2, c);
      more, t := Further(cfg, s0, l2, s2, c, answers + [failure], Proceed,
                         Effect(s2.calls[c].(phase := Route(a + 1)), Keep, Nothing));
    }
  }

  lemma ElseTwice(s: State, t: State, u: State, c: nat)
    requires Else(s, t, c) && Else(t, u, c)
    ensures Else(s, u, c)
  {}

  /** So does any number of them below the limit. */
  lemma {:induction false} AllFail(cfg: Config, s: State, c: nat, e: Endpoint, failures: seq<Answer>)
    returns (labels: seq<Label>, t: State)
    requires Reachable(cfg, s) && AtAttempt(s, c, 1) && Tokens(s, Slot(e)) < cfg.maxInFlight
    requires |failures| < cfg.retryMaxAttempts && forall i :: 0 <= i < |failures| ==> Transient(failures[i])
    ensures Leads(cfg, s, labels, t, c, failures) && AtAttempt(t, c, |failures| + 1) && Else(s, t, c)
    ensures t.calls[c] == s.calls[c].(phase := Route(|failures| + 1))
  {
    if failures == [] {
      labels, t := [], s;
      assert s.calls == s.calls[c := s.calls[c]];
    } else {
      hide Leads, Transient, Reachable;
      var n := |failures| - 1;
      var l1, s1 := AllFail(cfg, s, c, e, failures[..n]);
      labels, t := Fails(cfg, s, l1, s1, c, failures[..n], |failures|, e, failures[n]);
      assert failures[..n] + [failures[n]] == failures;
      ElseTwice(s, s1, t, c);
    }
  }

  /** The broker has nothing against the batch of the call: it carries no id, or the base sequence that
      is expected next. */
  predicate Welcome(s: State, c: nat)
    requires c < |s.calls| && s.calls[c].job.Deliver? && s.calls[c].identity.Some?
  {
    var id := s.calls[c].identity.value;
    id.producerId < 0 || id.baseSequence == Expected(Log(s, s.calls[c].job.key), id.producerId)
  }

  /** The request goes out and is appended. */
  lemma Appended(cfg: Config, s0: State, labels: seq<Label>, s: State, c: nat, answers: seq<Answer>)
    returns (more: seq<Label>, t: State)
    requires Leads(cfg, s0, labels, s, c, answers)
    requires c < |s.calls| && s.calls[c].job.Deliver? && s.calls[c].phase.Send? && s.calls[c].phase.budget > 0
    requires s.calls[c].identity.Some? && Welcome(s, c)
    ensures var call, k := s.calls[c], s.calls[c].job.key;
            && Leads(cfg, s0, more, t, c, answers) && t.tokens == s.tokens
            && t.calls == s.calls[c := call.(phase := call.phase.(budget := call.phase.budget - 1), frames := call.frames + 1)]
            && Log(t, k) == Log(s, k) + [Entry(c, call.identity.value.producerId, call.identity.value.baseSequence,
                                               ProtocolRecords(call.job.messages), End(s, k))]
            && Ack(c, call.phase.attempt, End(s, k)) in t.acks
  {
    var call, k := s.calls[c], s.calls[c].job.key;
    var p := call.phase;
    var f := Frame(c, p.attempt, k, p.bytes);
    hide Leads, Possible, Log, End, Expected, ProtocolRecords;
    ActTransmit(cfg, s, c);
    var l1, s1 := Further(cfg, s0, labels, s, c, answers, Transmit,
                          Effect(call.(phase := p.(budget := p.budget - 1), frames := call.frames + 1), Keep, Emit(f)));
    SameLog(s, s1, k);
    LeadsHere(cfg, s0, l1, s1, c, answers);
    var i := |s1.net| - 1;
    SentFrame(cfg, s1, i);
    ReceiveIs(cfg, s1, i);
    OneLabel(cfg, s0, l1, s1, c, answers, Receive(i));
    more, t := l1 + [Receive(i)], Handle(s1, f);
    assert answers + [] == answers;
    var b := HandleReads(s1, f);
    StoreLeaves(s1, f, b);
    StoreFacts(s1, f, b);
    AppendFacts(s1, f, b);
    AppendAcks(s1, f, b);
  }

  lemma AppendAcks(s: State, f: Frame, b: RecordBatch)
    ensures Ack(f.call, f.attempt, End(s, f.key)) in Append(s, f, b).acks
  {}

  lemma SameLog(s: State, t: State, k: Key)
    requires t.logs == s.logs && t.ends == s.ends
    ensures Log(t, k) == Log(s, k) && End(t, k) == End(s, k)
    ensures forall producerId :: Expected(Log(t, k), producerId) == Expected(Log(s, k), producerId)
  {}

  /** An acknowledged call commits and returns. */
  lemma Settles(cfg: Config, s0: State, labels: seq<Label>, s: State, c: nat, answers: seq<Answer>, offset: nat)
    returns (more: seq<Label>, t: State)
    requires Leads(cfg, s0, labels, s, c, answers)
    requires c < |s.calls| && s.calls[c].job.Deliver? && s.calls[c].phase.Send?
    requires Tokens(s, Slot(s.calls[c].phase.endpoint)) > 0
    requires Ack(c, s.calls[c].phase.attempt, offset) in s.acks
    ensures Leads(cfg, s0, more, t, c, answers + [Acked(offset)]) && t.logs == s.logs
    ensures t.calls == s.calls[c := s.calls[c].(phase := Done(Stored(offset)))]
  {
    hide Leads, Possible, Cast32;
    var now := answers + [Acked(offset)];
    var l1, s1 := Vacates(cfg, s0, labels, s, c, answers, Acked(offset));
    ActCommit(cfg, s1, c);
    var f := Effect(s1.calls[c].(phase := Leave(Stored(offset))), Keep,
                    Advance(s1.calls[c].job.key, |s1.calls[c].job.messages|));
    var l2, s2 := Further(cfg, s0, l1, s1, c, now, Proceed, f);
    ActLeave(cfg, s2, c);
    more, t := Further(cfg, s0, l2, s2, c, now, Proceed,
                       Effect(s2.calls[c].(phase := Done(Stored(offset))), Give(OrderLock(s2.calls[c].job.key)), Nothing));
  }

  /** From every reachable state in which a call begins its attempts, whatever passing failures fewer
      than the limit of attempts meet, the run can go on so that exactly they are the call's answers
      before an acknowledgement, with which the call returns: its batch is appended once, at the end of
      the partition, and stands at the offset the call was told. */
  lemma RetriesEndStored(cfg: Config, s: State, c: nat, e: Endpoint, failures: seq<Answer>)
    returns (labels: seq<Label>, t: State)
    requires Reachable(cfg, s) && AtAttempt(s, c, 1) && Welcome(s, c)
    requires cfg.framesPerSend >= 1 && Tokens(s, Slot(e)) < cfg.maxInFlight
    requires |failures| < cfg.retryMaxAttempts && forall i :: 0 <= i < |failures| ==> Transient(failures[i])
    ensures var k, id, offset := s.calls[c].job.key, s.calls[c].identity.value, End(s, s.calls[c].job.key);
            && Run(cfg, s, labels) == Some(t) && Given(labels, c) == failures + [Acked(offset)]
            && |t.calls| == |s.calls| && t.calls[c].phase == Done(Stored(offset))
            && Log(t, k) == Log(s, k) + [Entry(c, id.producerId, id.baseSequence,
                                               ProtocolRecords(s.calls[c].job.messages), offset)]
  {
    hide Transient, Reachable, Leads, Expected, Log, End, ProtocolRecords;
    var k := s.calls[c].job.key;
    var l1, s1 := AllFail(cfg, s, c, e, failures);
    var l2, s2, bytes := Occupies(cfg, s, l1, s1, c, failures, |failures| + 1, e);
    SameLog(s, s2, k);
    var l3, s3 := Appended(cfg, s, l2, s2, c, failures);
    labels, t := Settles(cfg, s, l3, s3, c, failures, End(s, k));
    SameEntries(s3, t, k);
    LeadsGives(cfg, s, labels, t, c, failures + [Acked(End(s, k))]);
  }

  lemma SameEntries(s: State, t: State, k: Key)
    requires t.logs == s.logs
    ensures Log(t, k) == Log(s, k)
  {}

  lemma LeadsGives(cfg: Config, s: State, labels: seq<Label>, t: State, c: nat, answers: seq<Answer>)
    requires Leads(cfg, s, labels, t, c, answers)
    ensures Run(cfg, s, labels) == Some(t) && Given(labels, c) == answers
  {}
}
