/** The connection multiplexer (internal/transport/connection.go): concurrent senders, one reader,
    cancellations and close, interleaved in any way.  Every section under `pendingMu` and every
    channel operation is one step. */
module Connection {
  import opened Wrappers
  import opened Wire

  datatype Reply = Response(id: Int32, payload: Bytes) | Failure

  datatype Phase = Writing | Waiting | Removing | Done(reply: Reply)

  /** A call of `Send`: `channel` is what stands in its one-place channel, `sent` how many
      results were ever put there. */
  datatype Request = Request(id: Int32, phase: Phase, channel: seq<Reply>, sent: nat)

  /** The reader waits for a frame, has taken an entry out of `pending` and is about to deliver,
      has seen an error, or is gone. */
  datatype Reader = Reading | Delivering(request: nat, reply: Reply) | Broken | Stopped

  /** `Close` first closes the `closed` channel, then fails the pending requests. */
  datatype Closing = Open | Marked | Closed

  /** A frame that the reader took: the request it was matched with, and how many requests had been
      made by then. */
  datatype Arrival = Arrival(id: Int32, payload: Bytes, request: Option<nat>, made: nat)

  datatype State = State(
    pending: map<Int32, nat>,
    requests: seq<Request>,
    reader: Reader,
    closing: Closing,
    frames: seq<Arrival>)    // history

  const INITIAL := State(map[], [], Reading, Open, [])

  datatype Label =
    | Register(id: Int32)
    | Written(request: nat, ok: bool)
    | Take(request: nat)
    | Expire(request: nat)
    | SeeClosed(request: nat)
    | Remove(request: nat)
    | Frame(id: Int32, payload: Bytes)
    | Deliver
    | Break
    | CloseBegin
    | CloseEnd
    | FailAgain

  predicate Unfinished(r: Request) { !r.phase.Done? }

  /** The first section of `Send`. */
  function Registered(s: State, id: Int32): State {
    var r := |s.requests|;
    if s.closing != Open || id in s.pending then
      s.(requests := s.requests + [Request(id, Done(Failure), [], 0)])
    else
      s.(requests := s.requests + [Request(id, Writing, [], 0)], pending := s.pending[id := r])
  }

  function Put(r: Request, reply: Reply): Request {
    r.(channel := r.channel + [reply], sent := r.sent + 1)
  }

  function At(s: State, r: nat, p: Phase): State
    requires r < |s.requests|
  {
    s.(requests := s.requests[r := s.requests[r].(phase := p)])
  }

  /** `failPending`. */
  function FailAll(s: State): State {
    s.(pending := map[], requests := FailThese(s.requests, s.pending.Values))
  }

  function FailThese(requests: seq<Request>, failed: set<nat>): (r: seq<Request>)
    ensures |r| == |requests|
  {
    seq(|requests|, r requires 0 <= r < |requests| =>
          if r in failed then Put(requests[r], Failure) else requests[r])
  }

  /** `removePending` by the reader. */
  function Received(s: State, id: Int32, payload: Bytes): State {
    if id in s.pending then
      s.(pending := s.pending - {id}, reader := Delivering(s.pending[id], Response(id, payload)),
         frames := s.frames + [Arrival(id, payload, Some(s.pending[id]), |s.requests|)])
    else s.(frames := s.frames + [Arrival(id, payload, None, |s.requests|)])
  }

  predicate CanFail(s: State) {
    forall id :: id in s.pending ==> s.pending[id] < |s.requests| && s.requests[s.pending[id]].channel == []
  }

  function Apply(s: State, l: Label): Option<State> {
    match l
    case Register(id) => Some(Registered(s, id))
    case Written(r, ok) =>
      if r < |s.requests| && s.requests[r].phase.Writing? then Some(At(s, r, if ok then Waiting else Removing))
      else None
    case Take(r) =>
      if r < |s.requests| && s.requests[r].phase.Waiting? && s.requests[r].channel != [] then
        var q := s.requests[r];
        Some(s.(requests := s.requests[r := q.(phase := Done(q.channel[0]), channel := q.channel[1..])]))
      else None
    case Expire(r) =>
      if r < |s.requests| && s.requests[r].phase.Waiting? then Some(At(s, r, Removing)) else None
    case SeeClosed(r) =>
      if r < |s.requests| && s.requests[r].phase.Waiting? && s.closing != Open then Some(At(s, r, Done(Failure)))
      else None
    case Remove(r) =>
      if r < |s.requests| && s.requests[r].phase.Removing? then
        Some(At(s, r, Done(Failure)).(pending := s.pending - {s.requests[r].id}))
      else None
    case Frame(id, payload) =>
      if s.reader.Reading? then Some(Received(s, id, payload)) else None
    case Deliver =>
      // a send on a one-place channel blocks while the place is taken
      if s.reader.Delivering? && s.reader.request < |s.requests| && s.requests[s.reader.request].channel == [] then
        var r := s.reader.request;
        Some(s.(reader := Reading, requests := s.requests[r := Put(s.requests[r], s.reader.reply)]))
      else None
    case Break => if s.reader.Reading? then Some(s.(reader := Broken)) else None
    case CloseBegin => if s.closing.Open? then Some(s.(closing := Marked)) else None
    case CloseEnd => if s.closing.Marked? && CanFail(s) then Some(FailAll(s).(closing := Closed)) else None
    case FailAgain =>
      if s.reader.Broken? && s.closing.Closed? && CanFail(s) then Some(FailAll(s).(reader := Stopped)) else None
  }

  function Run(s: State, labels: seq<Label>): Option<State> {
    if labels == [] then Some(s)
    else
      var before := Run(s, labels[..|labels| - 1]);
      if before.None? then None else Apply(before.value, labels[|labels| - 1])
  }

  // ---------------------------------------------------------------------- invariant

  predicate OwnReply(r: Request, reply: Reply) { reply.Response? ==> reply.id == r.id }

  /** What stands in a request's channel, and what it returned, answers its own id; and at most one
      result was ever put there. */
  predicate RequestOk(r: Request) {
    && |r.channel| <= r.sent <= 1
    && (forall i :: 0 <= i < |r.channel| ==> OwnReply(r, r.channel[i]))
    && (r.phase.Done? ==> OwnReply(r, r.phase.reply))
  }

  /** A request that may still be sent a result has not been sent one. */
  predicate Expecting(s: State, r: nat, id: Int32) {
    r < |s.requests| && s.requests[r].id == id && s.requests[r].sent == 0
  }

  predicate Inv(s: State) {
    && (forall r :: 0 <= r < |s.requests| ==> RequestOk(s.requests[r]))
    && (forall id :: id in s.pending ==> Expecting(s, s.pending[id], id))
    && (s.reader.Delivering? ==>
          && s.reader.reply.Response? && Expecting(s, s.reader.request, s.reader.reply.id)
          && s.reader.request !in s.pending.Values)
    && (s.closing.Closed? ==> s.pending == map[])
  }

  /** A request that changes without being sent anything, while no entry is added. */
  lemma ChangeKept(s: State, r: nat, q: Request, pending: map<Int32, nat>)
    requires Inv(s) && r < |s.requests|
    requires RequestOk(q) && q.id == s.requests[r].id && q.sent == s.requests[r].sent
    requires forall id :: id in pending ==> id in s.pending && pending[id] == s.pending[id]
    ensures Inv(s.(requests := s.requests[r := q], pending := pending))
  {
    hide RequestOk;
    var t := s.(requests := s.requests[r := q], pending := pending);
    forall id | id in t.pending
      ensures Expecting(t, t.pending[id], id)
    {
      assert Expecting(s, s.pending[id], id);
    }
  }

  lemma SenderKept(s: State, l: Label)
    requires Inv(s) && Apply(s, l).Some?
    requires l.Written? || l.Take? || l.Expire? || l.SeeClosed? || l.Remove?
    ensures Inv(Apply(s, l).value)
  {
    var r, t := l.request, Apply(s, l).value;
    assert RequestOk(s.requests[r]) && RequestOk(t.requests[r]);
    ChangeKept(s, r, t.requests[r], t.pending);
    assert t == s.(requests := s.requests[r := t.requests[r]], pending := t.pending);
  }

  lemma RegisterKept(s: State, id: Int32)
    requires Inv(s)
    ensures Inv(Registered(s, id))
  {
    var t := Registered(s, id);
    hide RequestOk;
    assert RequestOk(t.requests[|s.requests|]) by { NewRequestOk(t.requests[|s.requests|]); }
    forall i | i in t.pending
      ensures Expecting(t, t.pending[i], i)
    {
      assert i != id || t.pending[i] == |s.requests| || Expecting(s, s.pending[i], i);
    }
  }

  lemma NewRequestOk(r: Request)
    requires r.channel == [] && r.sent == 0 && (r.phase.Done? ==> r.phase.reply.Failure?)
    ensures RequestOk(r)
  {}

  lemma FrameKept(s: State, id: Int32, payload: Bytes)
    requires Inv(s) && s.reader.Reading?
    ensures Inv(Received(s, id, payload))
  {
    hide RequestOk;
    var t := Received(s, id, payload);
    if id in s.pending {
      assert Expecting(s, s.pending[id], id);
      forall i | i in t.pending
        ensures Expecting(t, t.pending[i], i) && t.pending[i] != s.pending[id]
      {
        assert Expecting(s, s.pending[i], i);
      }
    }
  }

  lemma DeliverKept(s: State)
    requires Inv(s) && Apply(s, Deliver).Some?
    ensures Inv(Apply(s, Deliver).value)
  {
    var r, t := s.reader.request, Apply(s, Deliver).value;
    assert RequestOk(s.requests[r]) && RequestOk(t.requests[r]);
    hide RequestOk;
    forall i | i in t.pending
      ensures Expecting(t, t.pending[i], i)
    {
      assert Expecting(s, s.pending[i], i) && s.pending[i] != r;
    }
  }

  lemma FailKept(s: State)
    requires Inv(s) && CanFail(s)
    ensures FailAll(s).pending == map[]
    ensures forall r :: 0 <= r < |s.requests| ==> RequestOk(FailAll(s).requests[r])
    ensures forall r, id :: Expecting(s, r, id) && r !in s.pending.Values ==> Expecting(FailAll(s), r, id)
  {
    var t := FailAll(s);
    forall r | 0 <= r < |s.requests|
      ensures RequestOk(t.requests[r])
    {
      assert RequestOk(s.requests[r]);
      if r in s.pending.Values {
        var id :| id in s.pending && s.pending[id] == r;
        assert Expecting(s, r, id);
      }
    }
  }

  lemma InvKept(s: State, l: Label)
    requires Inv(s) && Apply(s, l).Some?
    ensures Inv(Apply(s, l).value)
  {
    hide RequestOk;
    match l {
      case Register(id) => RegisterKept(s, id);
      case Frame(id, payload) => FrameKept(s, id, payload);
      case Deliver => DeliverKept(s);
      case Break =>
      case CloseBegin =>
      case CloseEnd => FailKept(s);
      case FailAgain => FailKept(s);
      case _ => SenderKept(s, l);
    }
  }

  lemma {:induction false} RunInv(labels: seq<Label>)
    requires Run(INITIAL, labels).Some?
    ensures Inv(Run(INITIAL, labels).value)
  {
    hide Inv, Apply;
    if labels != [] {
      RunInv(labels[..|labels| - 1]);
      InvKept(Run(INITIAL, labels[..|labels| - 1]).value, labels[|labels| - 1]);
    } else {
      InitialInv();
    }
  }

  lemma InitialInv()
    ensures Inv(INITIAL)
  {}

  ghost predicate Reachable(s: State) {
    exists labels :: Run(INITIAL, labels) == Some(s)
  }

  lemma ReachableInv(s: State)
    requires Reachable(s)
    ensures Inv(s)
  {
    hide Run, Inv;
    var labels :| Run(INITIAL, labels) == Some(s);
    RunInv(labels);
  }

  /** Every request is sent at most one result; a result for it always finds the channel free, so
      neither the reader nor `failPending` ever blocks on it. */
  lemma AtMostOneResult(s: State)
    requires Reachable(s)
    ensures forall r :: 0 <= r < |s.requests| ==> s.requests[r].sent <= 1
    ensures s.reader.Delivering? ==> Apply(s, Deliver).Some?
    ensures forall id :: id in s.pending ==> s.pending[id] < |s.requests| && s.requests[s.pending[id]].channel == []
    ensures CanFail(s)
  {
    ReachableInv(s);
    hide Reachable;
    forall r | 0 <= r < |s.requests|
      ensures s.requests[r].sent <= 1 && |s.requests[r].channel| <= s.requests[r].sent
    {
      assert RequestOk(s.requests[r]);
    }
    forall id | id in s.pending
      ensures s.pending[id] < |s.requests| && s.requests[s.pending[id]].channel == []
    {
      assert Expecting(s, s.pending[id], id);
    }
  }

  /** A response that `Send` returns carries the correlation id of its own request. */
  lemma OwnResponse(s: State, r: nat)
    requires Reachable(s) && r < |s.requests| && s.requests[r].phase.Done? && s.requests[r].phase.reply.Response?
    ensures s.requests[r].phase.reply.id == s.requests[r].id
  {
    ReachableInv(s);
    assert RequestOk(s.requests[r]);
  }

  // ------------------------------------------------------------- frames and responses

  /** A frame with this id and payload was matched with request `r`, after the request was made. */
  predicate CameFor(s: State, r: nat, reply: Reply) {
    reply.Response? ==>
      exists i :: 0 <= i < |s.frames| && Brings(s.frames[i], r, reply)
  }

  predicate Brings(f: Arrival, r: nat, reply: Reply) {
    reply.Response? && f.id == reply.id && f.payload == reply.payload && f.request == Some(r) && r < f.made
  }

  /** What a request was sent came in a frame. */
  predicate SentIsFramed(s: State, r: nat)
    requires r < |s.requests|
  {
    && (forall i :: 0 <= i < |s.requests[r].channel| ==> CameFor(s, r, s.requests[r].channel[i]))
    && (s.requests[r].phase.Done? ==> CameFor(s, r, s.requests[r].phase.reply))
  }

  /** A frame that was matched took its request out of the pending ones. */
  predicate TookOut(s: State, f: Arrival) {
    f.request.Some? ==> f.request.value < |s.requests| && f.request.value !in s.pending.Values
  }

  predicate Matched(s: State) {
    && (forall r :: 0 <= r < |s.requests| ==> SentIsFramed(s, r))
    && (s.reader.Delivering? ==> CameFor(s, s.reader.request, s.reader.reply))
    && (forall i :: 0 <= i < |s.frames| ==> TookOut(s, s.frames[i]))
    && forall i, j :: 0 <= i < j < |s.frames| && s.frames[i].request.Some? ==> s.frames[i].request != s.frames[j].request
  }

  lemma CameForStays(s: State, t: State, r: nat, reply: Reply)
    requires CameFor(s, r, reply) && s.frames <= t.frames
    ensures CameFor(t, r, reply)
  {
    if reply.Response? {
      var i :| 0 <= i < |s.frames| && Brings(s.frames[i], r, reply);
      assert Brings(t.frames[i], r, reply);
    }
  }

  /** No step but the taking of a frame adds to what was received. */
  lemma OldFrames(s: State, l: Label)
    requires Apply(s, l).Some? && !l.Frame?
    ensures Apply(s, l).value.frames == s.frames
  {}

  lemma MatchedSent(s: State, l: Label, r: nat)
    requires Inv(s) && Matched(s) && Apply(s, l).Some? && r < |Apply(s, l).value.requests|
    ensures SentIsFramed(Apply(s, l).value, r)
  {
    var t := Apply(s, l).value;
    assert s.frames <= t.frames;
    assert r < |s.requests| ==> SentIsFramed(s, r);
    if l.Register? && r == |s.requests| {
    } else {
      SentStays(s, t, r);
      hide Inv, Matched;
      if l.CloseEnd? || l.FailAgain? {
        FailedSent(s, t, r);
      } else if l.Deliver? && r == s.reader.request {
        CameForStays(s, t, r, s.reader.reply);
      }
    }
  }

  lemma SentStays(s: State, t: State, r: nat)
    requires r < |s.requests| && SentIsFramed(s, r) && s.frames <= t.frames
    ensures forall i :: 0 <= i < |s.requests[r].channel| ==> CameFor(t, r, s.requests[r].channel[i])
    ensures s.requests[r].phase.Done? ==> CameFor(t, r, s.requests[r].phase.reply)
  {
    hide CameFor;
    forall i | 0 <= i < |s.requests[r].channel|
      ensures CameFor(t, r, s.requests[r].channel[i])
    {
      CameForStays(s, t, r, s.requests[r].channel[i]);
    }
    if s.requests[r].phase.Done? {
      CameForStays(s, t, r, s.requests[r].phase.reply);
    }
  }

  lemma FailedSent(s: State, t: State, r: nat)
    requires t.requests == FailAll(s).requests && r < |s.requests|
    requires forall i :: 0 <= i < |s.requests[r].channel| ==> CameFor(t, r, s.requests[r].channel[i])
    requires s.requests[r].phase.Done? ==> CameFor(t, r, s.requests[r].phase.reply)
    ensures SentIsFramed(t, r)
  {
    assert CameFor(t, r, Failure);
    hide CameFor;
  }

  lemma MatchedKept(s: State, l: Label)
    requires Inv(s) && Matched(s) && Apply(s, l).Some?
    ensures Matched(Apply(s, l).value)
  {
    var t := Apply(s, l).value;
    forall r | 0 <= r < |t.requests|
      ensures SentIsFramed(t, r)
    {
      hide *;
      MatchedSent(s, l, r);
    }
    hide SentIsFramed, FailThese;
    if l.Frame? {
      MatchedFrame(s, l.id, l.payload);
    } else {
      OldFrames(s, l);
      StillOut(s, l);
      if t.reader.Delivering? {
        CameForStays(s, t, t.reader.request, t.reader.reply);
      }
    }
  }

  lemma StillOut(s: State, l: Label)
    requires Inv(s) && Matched(s) && Apply(s, l).Some? && !l.Frame?
    ensures var t := Apply(s, l).value; forall i :: 0 <= i < |s.frames| ==> TookOut(t, s.frames[i])
  {
    hide SentIsFramed, RequestOk, FailThese;
    var t := Apply(s, l).value;
    forall i | 0 <= i < |s.frames|
      ensures TookOut(t, s.frames[i])
    {
      assert TookOut(s, s.frames[i]);
    }
  }

  lemma MatchedFrame(s: State, id: Int32, payload: Bytes)
    requires Inv(s) && Matched(s) && s.reader.Reading?
    ensures var t := Received(s, id, payload);
            && (t.reader.Delivering? ==> CameFor(t, t.reader.request, t.reader.reply))
            && (forall i :: 0 <= i < |t.frames| ==> TookOut(t, t.frames[i]))
            && forall i, j :: 0 <= i < j < |t.frames| && t.frames[i].request.Some? ==> t.frames[i].request != t.frames[j].request
  {
    hide SentIsFramed, RequestOk;
    var t := Received(s, id, payload);
    var n := |s.frames|;
    if id in s.pending {
      assert Expecting(s, s.pending[id], id);
      assert Brings(t.frames[n], s.pending[id], Response(id, payload));
      assert s.pending[id] in s.pending.Values;
      forall x | x in t.pending.Values
        ensures x != s.pending[id]
      {
        var i :| i in t.pending && t.pending[i] == x;
        assert Expecting(s, s.pending[i], i);
      }
    }
    forall i | 0 <= i < n
      ensures TookOut(t, t.frames[i])
    {
      assert TookOut(s, s.frames[i]);
    }
  }

  lemma {:induction false} RunMatched(labels: seq<Label>)
    requires Run(INITIAL, labels).Some?
    ensures Matched(Run(INITIAL, labels).value)
  {
    hide Inv, Apply, Matched;
    if labels != [] {
      RunMatched(labels[..|labels| - 1]);
      RunInv(labels[..|labels| - 1]);
      MatchedKept(Run(INITIAL, labels[..|labels| - 1]).value, labels[|labels| - 1]);
    } else {
      NothingMatched();
    }
  }

  lemma NothingMatched()
    ensures Matched(INITIAL)
  {}

  /** A response that `Send` returns is the payload of a frame with the request's own id that the reader
      took after the request was made; and no frame answers two requests, nor do two frames answer one. */
  lemma ResponseIsFrame(s: State, r: nat) returns (i: nat)
    requires Reachable(s) && r < |s.requests| && s.requests[r].phase.Done? && s.requests[r].phase.reply.Response?
    ensures i < |s.frames| && s.frames[i].id == s.requests[r].id && s.frames[i].payload == s.requests[r].phase.reply.payload
    ensures s.frames[i].request == Some(r) && r < s.frames[i].made
    ensures forall j :: 0 <= j < |s.frames| && s.frames[j].request == Some(r) ==> j == i
  {
    OwnResponse(s, r);
    var labels :| Run(INITIAL, labels) == Some(s);
    RunMatched(labels);
    hide Reachable, Run;
    assert SentIsFramed(s, r);
    i :| 0 <= i < |s.frames| && Brings(s.frames[i], r, s.requests[r].phase.reply);
  }

  /** The sender of request `r` gave up: it could not write, its context expired, or it saw the close. */
  predicate GaveUp(labels: seq<Label>, r: nat) {
    exists i :: 0 <= i < |labels| && GivesUp(labels[i], r)
  }

  predicate GivesUp(l: Label, r: nat) {
    (l.Written? && l.request == r && !l.ok) || (l.Expire? && l.request == r) || (l.SeeClosed? && l.request == r)
  }

  /** No frame was matched with request `r`, and none will be. */
  predicate Unanswered(s: State, r: nat) {
    r !in s.pending.Values && forall i :: 0 <= i < |s.frames| ==> s.frames[i].request != Some(r)
  }

  predicate HasFailed(q: Request) {
    Failure in q.channel || (q.phase.Done? && q.phase.reply.Failure?)
  }

  predicate Explained(s: State, labels: seq<Label>, r: nat)
    requires r < |s.requests|
  {
    && (s.requests[r].phase.Removing? ==> GaveUp(labels, r))
    && (HasFailed(s.requests[r]) ==> GaveUp(labels, r) || Unanswered(s, r))
  }

  lemma GaveUpStays(labels: seq<Label>, l: Label, r: nat)
    ensures GaveUp(labels, r) ==> GaveUp(labels + [l], r)
    ensures GivesUp(l, r) ==> GaveUp(labels + [l], r)
  {
    if i :| 0 <= i < |labels| && GivesUp(labels[i], r) {
      assert GivesUp((labels + [l])[i], r);
    }
    assert (labels + [l])[|labels|] == l;
  }

  lemma UnansweredStays(s: State, l: Label, r: nat)
    requires Inv(s) && Apply(s, l).Some? && Unanswered(s, r) && r < |s.requests|
    ensures Unanswered(Apply(s, l).value, r)
  {
    hide RequestOk, FailThese, Expecting;
    var t := Apply(s, l).value;
    if l.Frame? && l.id in s.pending {
      assert s.pending[l.id] in s.pending.Values;
    }
  }

  lemma ExplainedKept(s: State, labels: seq<Label>, l: Label, r: nat)
    requires Inv(s) && Matched(s) && Apply(s, l).Some? && r < |Apply(s, l).value.requests|
    requires r < |s.requests| ==> Explained(s, labels, r)
    ensures Explained(Apply(s, l).value, labels + [l], r)
  {
    var t := Apply(s, l).value;
    if r == |s.requests| {
      NewIsUnanswered(s, l);
    } else {
      GaveUpStays(labels, l, r);
      if HasFailed(s.requests[r]) && Unanswered(s, r) {
        UnansweredStays(s, l, r);
      }
      hide GaveUp, Unanswered, Matched, SentIsFramed;
      if l.CloseEnd? || l.FailAgain? {
        FailedIsUnanswered(s, t, r);
      } else if HasFailed(t.requests[r]) && !HasFailed(s.requests[r]) {
        assert l == Remove(r) || l == SeeClosed(r);
      }
    }
  }

  lemma NewIsUnanswered(s: State, l: Label)
    requires Inv(s) && Matched(s) && Apply(s, l).Some? && |Apply(s, l).value.requests| == |s.requests| + 1
    ensures var t, r := Apply(s, l).value, |s.requests|;
            && !t.requests[r].phase.Removing? && (HasFailed(t.requests[r]) ==> Unanswered(t, r))
  {
    hide SentIsFramed, RequestOk, FailThese;
    var r := |s.requests|;
    assert l.Register?;
    assert forall i :: 0 <= i < |s.frames| ==> TookOut(s, s.frames[i]);
    forall i | i in s.pending
      ensures s.pending[i] != r
    {
      assert Expecting(s, s.pending[i], i);
    }
  }

  lemma FailedIsUnanswered(s: State, t: State, r: nat)
    requires Inv(s) && Matched(s) && r < |s.requests| && t.requests == FailAll(s).requests
    requires t.pending == map[] && t.frames == s.frames
    ensures r in s.pending.Values ==> Unanswered(t, r)
    ensures r !in s.pending.Values ==> t.requests[r] == s.requests[r]
    ensures t.requests[r].phase == s.requests[r].phase
  {
    hide SentIsFramed, RequestOk;
    if r in s.pending.Values {
      forall i | 0 <= i < |s.frames|
        ensures s.frames[i].request != Some(r)
      {
        assert TookOut(s, s.frames[i]);
      }
    }
  }

  lemma {:induction false} RunExplained(labels: seq<Label>, r: nat)
    requires Run(INITIAL, labels).Some? && r < |Run(INITIAL, labels).value.requests|
    ensures Explained(Run(INITIAL, labels).value, labels, r)
  {
    hide Inv, Apply, Matched, Explained;
    if labels != [] {
      var front, l := labels[..|labels| - 1], labels[|labels| - 1];
      var s := Run(INITIAL, front).value;
      RunInv(front);
      RunMatched(front);
      if r < |s.requests| {
        RunExplained(front, r);
      }
      ExplainedKept(s, front, l, r);
      assert front + [l] == labels;
    }
  }

  /** A request for which a frame came returns that frame's response, unless its sender gave up. */
  lemma ResponseIsReturned(labels: seq<Label>, s: State, r: nat, i: nat)
    requires Run(INITIAL, labels) == Some(s) && r < |s.requests| && s.requests[r].phase.Done?
    requires i < |s.frames| && s.frames[i].request == Some(r) && !GaveUp(labels, r)
    ensures s.requests[r].phase == Done(Response(s.frames[i].id, s.frames[i].payload))
  {
    RunExplained(labels, r);
    assert Reachable(s);
    hide Reachable, Run, GaveUp;
    if s.requests[r].phase.reply.Response? {
      var j := ResponseIsFrame(s, r);
      OwnResponse(s, r);
    }
  }

  // --------------------------------------------------------------------------- close

  /** Once `Close` has failed the pending requests, none is ever pending again, and every waiting
      sender can return. */
  lemma {:induction false} ClosedForever(s: State, labels: seq<Label>)
    requires Reachable(s) && s.closing.Closed? && Run(s, labels).Some?
    ensures var t := Run(s, labels).value;
            && t.closing.Closed? && t.pending == map[]
            && forall r :: 0 <= r < |t.requests| && t.requests[r].phase.Waiting? ==> Apply(t, SeeClosed(r)).Some?
  {
    ReachableInv(s);
    ClosedRun(s, labels);
  }

  lemma {:induction false} ClosedRun(s: State, labels: seq<Label>)
    requires Inv(s) && s.closing.Closed? && Run(s, labels).Some?
    ensures Inv(Run(s, labels).value) && Run(s, labels).value.closing.Closed?
  {
    hide Inv;
    if labels != [] {
      ClosedRun(s, labels[..|labels| - 1]);
      InvKept(Run(s, labels[..|labels| - 1]).value, labels[|labels| - 1]);
    }
  }

  // ------------------------------------------------------------------------ orphans

  /** Somebody will answer request `r`: it is pending, or being delivered to, or answered. */
  predicate Tracked(s: State, r: nat)
    requires r < |s.requests|
  {
    || (s.requests[r].id in s.pending && s.pending[s.requests[r].id] == r)
    || (s.reader.Delivering? && s.reader.request == r)
    || s.requests[r].channel != []
  }

  predicate InFlight(r: Request) { r.phase.Writing? || r.phase.Waiting? }

  /** An unfinished request other than `r` has this id. */
  predicate Shared(s: State, id: Int32, r: nat) {
    exists q :: 0 <= q < |s.requests| && q != r && s.requests[q].id == id && Unfinished(s.requests[q])
  }

  /** While it is in flight `r` is tracked, and while its entry is pending nobody else can remove it. */
  predicate Safe(s: State, r: nat) {
    && r < |s.requests|
    && (InFlight(s.requests[r]) ==> Tracked(s, r))
    && (s.requests[r].id in s.pending && s.pending[s.requests[r].id] == r ==> !Shared(s, s.requests[r].id, r))
  }

  lemma SafeKept(s: State, l: Label, r: nat)
    requires Inv(s) && Safe(s, r) && Apply(s, l).Some?
    ensures Safe(Apply(s, l).value, r)
  {
    if l.CloseEnd? || l.FailAgain? {
      FailIsSafe(s, r);
    } else {
      hide RequestOk, FailAll;
      var t, id := Apply(s, l).value, s.requests[r].id;
      assert r < |t.requests| && t.requests[r].id == id;
      if id in t.pending && t.pending[id] == r {
        assert id in s.pending && s.pending[id] == r;
        forall q | 0 <= q < |t.requests| && q != r && t.requests[q].id == id
          ensures t.requests[q].phase.Done?
        {
          assert q < |s.requests| ==> s.requests[q].id == id && s.requests[q].phase.Done?;
        }
      }
    }
  }

  lemma FailIsSafe(s: State, r: nat)
    requires Inv(s) && Safe(s, r)
    ensures FailAll(s).pending == map[] && r < |FailAll(s).requests|
    ensures InFlight(FailAll(s).requests[r]) ==>
              (s.reader.Delivering? && s.reader.request == r) || FailAll(s).requests[r].channel != []
  {
    hide RequestOk;
  }

  lemma {:induction false} SafeForever(s: State, labels: seq<Label>, r: nat)
    requires Inv(s) && Safe(s, r) && Run(s, labels).Some?
    ensures Safe(Run(s, labels).value, r)
  {
    hide Inv, Safe, Apply;
    if labels != [] {
      SafeForever(s, labels[..|labels| - 1], r);
      RunFromInv(s, labels[..|labels| - 1]);
      SafeKept(Run(s, labels[..|labels| - 1]).value, labels[|labels| - 1], r);
    }
  }

  lemma {:induction false} RunFromInv(s: State, labels: seq<Label>)
    requires Inv(s) && Run(s, labels).Some?
    ensures Inv(Run(s, labels).value)
  {
    hide Inv, Apply;
    if labels != [] {
      RunFromInv(s, labels[..|labels| - 1]);
      InvKept(Run(s, labels[..|labels| - 1]).value, labels[|labels| - 1]);
    }
  }

  /** The section that registers a request gives it an entry of its own. */
  predicate Registers(s: State, id: Int32) {
    s.closing.Open? && id !in s.pending
  }

  /** In every continuation request `r` is tracked as long as it is in flight. */
  ghost predicate NeverOrphaned(s: State, r: nat) {
    forall labels :: Run(s, labels).Some? ==>
                       var t := Run(s, labels).value;
                       r < |t.requests| && (InFlight(t.requests[r]) ==> Tracked(t, r))
  }

  lemma RegisteredIsSafe(s: State, id: Int32)
    requires Inv(s) && Registers(s, id) && !Shared(s, id, |s.requests|)
    ensures Inv(Registered(s, id)) && Safe(Registered(s, id), |s.requests|)
  {
    RegisterKept(s, id);
    hide Inv, RequestOk;
    var t, r := Registered(s, id), |s.requests|;
    forall q | 0 <= q < |t.requests| && q != r && t.requests[q].id == id
      ensures t.requests[q].phase.Done?
    {
      assert s.requests[q].id == id;
    }
  }

  /** An unfinished request with the same id can be cancelled and take the new entry with it. */
  lemma Orphaned(s: State, id: Int32) returns (labels: seq<Label>)
    requires Inv(s) && Registers(s, id) && Shared(s, id, |s.requests|)
    ensures |labels| <= 2 && Run(Registered(s, id), labels).Some?
    ensures var t, r := Run(Registered(s, id), labels).value, |s.requests|;
            r < |t.requests| && InFlight(t.requests[r]) && !Tracked(t, r)
  {
    var q :| 0 <= q < |s.requests| && q != |s.requests| && s.requests[q].id == id && Unfinished(s.requests[q]);
    var s1 := Registered(s, id);
    assert s1.requests[q] == s.requests[q];
    if s.requests[q].phase.Removing? {
      RemoveOrphans(s, s1, id, q);
      labels := [Remove(q)];
      OneStep(s1, Remove(q));
    } else {
      var l := if s.requests[q].phase.Writing? then Written(q, false) else Expire(q);
      var s2 := At(s1, q, Removing);
      assert Apply(s1, l) == Some(s2);
      RemoveOrphans(s, s2, id, q);
      labels := [l, Remove(q)];
      TwoSteps(s1, l, s2, Remove(q));
    }
  }

  lemma RemoveOrphans(s: State, t: State, id: Int32, q: nat)
    requires Inv(s) && Registers(s, id) && q < |s.requests| && |t.requests| == |s.requests| + 1
    requires t.requests[q].phase.Removing? && t.requests[q].id == id && t.reader == s.reader
    requires t.requests[|s.requests|] == Request(id, Writing, [], 0)
    ensures Apply(t, Remove(q)).Some?
    ensures var u, r := Apply(t, Remove(q)).value, |s.requests|;
            r < |u.requests| && InFlight(u.requests[r]) && !Tracked(u, r)
  {}

  lemma OneStep(s: State, l: Label)
    ensures Run(s, [l]) == Apply(s, l)
  {
    hide Apply;
    assert [l][..0] == [];
    assert Run(s, []) == Some(s);
  }

  lemma TwoSteps(s: State, l: Label, t: State, m: Label)
    requires Apply(s, l) == Some(t)
    ensures Run(s, [l, m]) == Apply(t, m)
  {
    OneStep(s, l);
    hide Apply;
    assert [l, m][..1] == [l];
  }

  /** A request can be lost in some continuation if and only if, when it is registered, an unfinished
      request has the same id: one that is not pending any more, but may still be cancelled, and then
      removes the new entry, which nobody will answer. */
  lemma RegistrationDecides(s: State, id: Int32)
    requires Reachable(s) && Registers(s, id)
    ensures NeverOrphaned(Registered(s, id), |s.requests|) <==> !Shared(s, id, |s.requests|)
  {
    ReachableInv(s);
    hide Reachable, Inv;
    var t, r := Registered(s, id), |s.requests|;
    if Shared(s, id, r) {
      hide Run, Shared, Tracked, Registered;
      var labels := Orphaned(s, id);
    } else {
      RegisteredIsSafe(s, id);
      hide Run, Shared, Tracked, Registered;
      forall labels | Run(t, labels).Some?
        ensures var u := Run(t, labels).value;
                r < |u.requests| && (InFlight(u.requests[r]) ==> Tracked(u, r))
      {
        SafeForever(t, labels, r);
      }
    }
  }

  /** Such a request can be there: the reader has taken the first request's entry and not delivered
      yet, or has delivered and the first request has not looked. */
  lemma SharedIsReachable(id: Int32, payload: Bytes)
    ensures exists s :: Reachable(s) && Registers(s, id) && Shared(s, id, |s.requests|)
  {
    var q := Request(id, Writing, [], 0);
    var s1 := State(map[id := 0], [q], Reading, Open, []);
    var s2 := State(map[], [q], Delivering(0, Response(id, payload)), Open, [Arrival(id, payload, Some(0), 1)]);
    var none: seq<Request> := [];
    var empty: map<Int32, nat> := map[];
    assert none + [q] == s1.requests && empty[id := 0] == s1.pending;
    assert Registered(INITIAL, id) == s1;
    assert s1.pending - {id} == map[];
    assert Received(s1, id, payload) == s2;
    TwoSteps(INITIAL, Register(id), s1, Frame(id, payload));
    assert s2.requests[0].id == id && Unfinished(s2.requests[0]);
    assert Shared(s2, id, 1) && Registers(s2, id);
  }

  // -------------------------------------------------------------- the guarded sections

  class Multiplexer {
    var pending: map<Int32, nat>
    var requests: seq<Request>
    var reader: Reader
    var closing: Closing
    var frames: seq<Arrival>

    constructor ()
      ensures Snapshot() == INITIAL
    {
      pending, requests, reader, closing, frames := map[], [], Reading, Open, [];
    }

    function Snapshot(): State
      reads this
    {
      State(pending, requests, reader, closing, frames)
    }

    /** A sender enters its request, unless the connection is closed or the id taken. */
    method Register(id: Int32) returns (r: nat, ok: bool)
      modifies this`pending, this`requests
      ensures Snapshot() == Registered(old(Snapshot()), id)
      ensures r == |old(requests)| && (ok <==> old(closing).Open? && id !in old(pending))
    {
      r := |requests|;
      ok := closing == Open && id !in pending;
      if ok {
        pending := pending[id := r];
        requests := requests + [Request(id, Writing, [], 0)];
      } else {
        requests := requests + [Request(id, Done(Failure), [], 0)];
      }
    }

    method RemovePending(id: Int32) returns (found: Option<nat>)
      modifies this`pending
      ensures pending == old(pending) - {id}
      ensures found == if id in old(pending) then Some(old(pending)[id]) else None
    {
      if id in pending {
        found := Some(pending[id]);
        pending := pending - {id};
      } else {
        found := None;
      }
    }

    /** The reader matches a frame with its request, and then delivers it. */
    method Dispatch(id: Int32, payload: Bytes)
      requires reader.Reading?
      modifies this`pending, this`reader, this`frames
      ensures Snapshot() == Received(old(Snapshot()), id, payload)
      ensures id in old(pending) ==>
                && reader.Delivering? && reader.request == old(pending)[id] && reader.reply.Response?
                && reader.reply.id == id && reader.reply.payload == payload && id !in pending
      ensures id !in old(pending) ==> reader.Reading? && pending == old(pending)
    {
      var found := RemovePending(id);
      frames := frames + [Arrival(id, payload, found, |requests|)];
      if found.Some? {
        reader := Delivering(found.value, Response(id, payload));
      }
    }

    /** Every pending request gets one failure, in any order. */
    method FailPending()
      requires Inv(Snapshot()) && CanFail(Snapshot())
      modifies this`pending, this`requests
      ensures Snapshot() == FailAll(old(Snapshot()))
    {
      ghost var before := Snapshot();
      hide FailThese, Expecting, RequestOk;
      FailNone(requests);
      assert before.pending.Values - pending.Values == {};
      while pending != map[]
        invariant forall id :: id in pending ==> id in before.pending && pending[id] == before.pending[id]
        invariant requests == FailThese(before.requests, before.pending.Values - pending.Values)
        decreases |pending|
      {
        var id :| id in pending;
        var r := pending[id];
        EntriesApart(before, pending, id);
        FailOne(before.requests, before.pending.Values - pending.Values, r);
        pending := pending - {id};
        requests := requests[r := Put(requests[r], Failure)];
      }
      assert before.pending.Values - pending.Values == before.pending.Values;
    }
  }

  lemma FailNone(requests: seq<Request>)
    ensures FailThese(requests, {}) == requests
  {}

  lemma FailOne(requests: seq<Request>, failed: set<nat>, r: nat)
    requires r < |requests| && r !in failed
    ensures FailThese(requests, failed + {r})
         == FailThese(requests, failed)[r := Put(FailThese(requests, failed)[r], Failure)]
  {}

  /** Taking out one entry fails one request more. */
  lemma EntriesApart(s: State, pending: map<Int32, nat>, id: Int32)
    requires Inv(s) && id in pending
    requires forall i :: i in pending ==> i in s.pending && pending[i] == s.pending[i]
    ensures pending[id] < |s.requests| && pending[id] !in s.pending.Values - pending.Values
    ensures s.pending.Values - (pending - {id}).Values == (s.pending.Values - pending.Values) + {pending[id]}
  {
    hide RequestOk;
    assert Expecting(s, s.pending[id], id);
    forall i | i in pending && i != id
      ensures pending[i] != pending[id]
    {
      assert Expecting(s, s.pending[i], i);
    }
    var rest := pending - {id};
    forall x | x in pending.Values && x != pending[id]
      ensures x in rest.Values
    {
      var i :| i in pending && pending[i] == x;
      assert i in rest && rest[i] == x;
    }
  }
}
