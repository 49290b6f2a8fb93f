/** The connection pool (internal/transport/pool.go): any number of concurrent `Get`, `Invalidate`
    and `Close` calls, with connections that break at any time.  Every section under `mu` is one
    step. */
module Pool {
  import opened Wrappers

  type Endpoint = string

  /** A call of `Get`; `Dialed` holds the outcome of the dial until the next section. */
  datatype Phase =
    | Looking
    | Waiting(channel: nat)
    | Dialing(channel: nat)
    | Dialed(channel: nat, created: Option<nat>)
    | Done(conn: Option<nat>)

  datatype Getter = Getter(key: Endpoint, phase: Phase)

  /** Connections and channels are numbered as they are made. */
  datatype State = State(
    connections: map<Endpoint, nat>,
    dialing: map<Endpoint, nat>,
    getters: seq<Getter>,
    makers: seq<nat>,        // for each connection, the getter that dialed it
    broken: set<nat>,        // connections that are closed
    channels: seq<Channel>,
    clash: bool)             // history: a dial ended while a connection was cached

  /** A waiter channel: the getter that made it, and how often it was closed. */
  datatype Channel = Channel(opener: nat, closed: nat)

  const INITIAL := State(map[], map[], [], [], {}, [], false)

  datatype Label =
    | Get(key: Endpoint)
    | Look(getter: nat)
    | Woken(getter: nat)
    | Expire(getter: nat)
    | Dial(getter: nat, ok: bool)
    | Finish(getter: nat)
    | Invalidate(key: Endpoint, conn: Option<nat>)
    | Break(broken: nat)
    | Close

  function At(s: State, g: nat, p: Phase): State
    requires g < |s.getters|
  {
    s.(getters := s.getters[g := s.getters[g].(phase := p)])
  }

  /** The section at the head of the loop in `Get`. */
  function Looked(s: State, g: nat): State
    requires g < |s.getters|
  {
    var key := s.getters[g].key;
    if key in s.connections && s.connections[key] !in s.broken then At(s, g, Done(Some(s.connections[key])))
    else
      var t := s.(connections := s.connections - {key});
      if key in s.dialing then At(t, g, Waiting(s.dialing[key]))
      else
        var channel := |s.channels|;
        At(t, g, Dialing(channel)).(dialing := t.dialing[key := channel], channels := t.channels + [Channel(g, 0)])
  }

  /** The section after the dial. */
  function Finished(s: State, g: nat, created: Option<nat>): State
    requires g < |s.getters|
  {
    var key := s.getters[g].key;
    if key !in s.dialing || s.dialing[key] >= |s.channels| then s
    else
      var channel := s.channels[s.dialing[key]];
      var t := s.(dialing := s.dialing - {key},
                  channels := s.channels[s.dialing[key] := channel.(closed := channel.closed + 1)]);
      if created.None? then At(t, g, Done(None))
      else if key in s.connections then
        At(t, g, Done(Some(s.connections[key]))).(broken := t.broken + {created.value}, clash := true)
      else At(t, g, Done(created)).(connections := t.connections[key := created.value])
  }

  /** `Invalidate`. */
  function Invalidated(s: State, key: Endpoint, conn: Option<nat>): State {
    if key in s.connections && (conn.None? || conn.value == s.connections[key]) then
      s.(connections := s.connections - {key}, broken := s.broken + {s.connections[key]})
    else s
  }

  function Apply(s: State, l: Label): Option<State> {
    match l
    case Get(key) => Some(s.(getters := s.getters + [Getter(key, Looking)]))
    case Look(g) => if g < |s.getters| && s.getters[g].phase.Looking? then Some(Looked(s, g)) else None
    case Woken(g) =>
      if g < |s.getters| && s.getters[g].phase.Waiting? && s.getters[g].phase.channel < |s.channels|
         && s.channels[s.getters[g].phase.channel].closed > 0
      then Some(At(s, g, Looking)) else None
    case Expire(g) =>
      if g < |s.getters| && s.getters[g].phase.Waiting? then Some(At(s, g, Done(None))) else None
    case Dial(g, ok) =>
      if g < |s.getters| && s.getters[g].phase.Dialing? then
        var c := s.getters[g].phase.channel;
        Some(if ok then At(s, g, Dialed(c, Some(|s.makers|))).(makers := s.makers + [g]) else At(s, g, Dialed(c, None)))
      else None
    case Finish(g) =>
      if g < |s.getters| && s.getters[g].phase.Dialed? then Some(Finished(s, g, s.getters[g].phase.created))
      else None
    case Invalidate(key, conn) => Some(Invalidated(s, key, conn))
    case Break(conn) => Some(s.(broken := s.broken + {conn}))
    case Close => Some(s.(connections := map[], broken := s.broken + s.connections.Values))
  }

  function Run(s: State, labels: seq<Label>): Option<State> {
    if labels == [] then Some(s)
    else
      var before := Run(s, labels[..|labels| - 1]);
      if before.None? then None else Apply(before.value, labels[|labels| - 1])
  }

  // ---------------------------------------------------------------------- invariant

  predicate Dials(g: Getter) { g.phase.Dialing? || g.phase.Dialed? }

  /** A getter that dials does so under the channel that it made for its key; one that waits waits
      on a channel that is closed already or is still its key's. */
  predicate GetterOk(s: State, g: nat)
    requires g < |s.getters|
  {
    var q := s.getters[g];
    && (Dials(q) ==>
          && q.key in s.dialing && s.dialing[q.key] == q.phase.channel < |s.channels|
          && s.channels[q.phase.channel].opener == g)
    && (q.phase.Waiting? ==>
          && q.phase.channel < |s.channels|
          && (s.channels[q.phase.channel].closed > 0
              || (q.key in s.dialing && s.dialing[q.key] == q.phase.channel)))
    && (q.phase.Dialed? && q.phase.created.Some? ==>
          var c := q.phase.created.value;
          c < |s.makers| && s.makers[c] == g && c !in s.connections.Values)
  }

  /** A key that is dialed has an open channel, whose maker dials it, and no cached connection. */
  predicate KeyOk(s: State, k: Endpoint)
    requires k in s.dialing
  {
    && s.dialing[k] < |s.channels| && s.channels[s.dialing[k]].closed == 0
    && s.channels[s.dialing[k]].opener < |s.getters|
    && s.getters[s.channels[s.dialing[k]].opener].key == k
    && Dials(s.getters[s.channels[s.dialing[k]].opener])
    && k !in s.connections
  }

  /** A cached connection was dialed for its key. */
  predicate CachedOk(s: State, k: Endpoint)
    requires k in s.connections
  {
    var c := s.connections[k];
    c < |s.makers| && s.makers[c] < |s.getters| && s.getters[s.makers[c]].key == k
  }

  predicate Inv(s: State) {
    && (forall g :: 0 <= g < |s.getters| ==> GetterOk(s, g))
    && (forall k :: k in s.dialing ==> KeyOk(s, k))
    && (forall k :: k in s.connections ==> CachedOk(s, k))
    && (forall c :: 0 <= c < |s.channels| ==> s.channels[c].closed <= 1)
    && (forall c :: 0 <= c < |s.makers| ==> s.makers[c] < |s.getters|)
    && !s.clash
  }

  lemma InvKept(s: State, l: Label)
    requires Inv(s) && Apply(s, l).Some?
    ensures Inv(Apply(s, l).value)
  {
    hide GetterOk, KeyOk, CachedOk, Looked, Finished;
    match l {
      case Get(key) => GetKept(s, key);
      case Look(g) => LookKept(s, g);
      case Woken(g) => PhaseKept(s, g, Looking);
      case Expire(g) => PhaseKept(s, g, Done(None));
      case Dial(g, ok) => DialKept(s, g, ok);
      case Finish(g) => FinishKept(s, g);
      case Invalidate(key, conn) => ShrinkKept(s, Invalidated(s, key, conn).connections, Invalidated(s, key, conn).broken);
      case Break(conn) => ShrinkKept(s, s.connections, s.broken + {conn});
      case Close => ShrinkKept(s, map[], s.broken + s.connections.Values);
    }
  }

  /** A getter that does not dial moves on to a phase in which it does not dial. */
  lemma PhaseKept(s: State, g: nat, p: Phase)
    requires Inv(s) && g < |s.getters| && !Dials(s.getters[g])
    requires p.Looking? || p.Done? || (p.Waiting? && s.getters[g].key in s.dialing && p.channel == s.dialing[s.getters[g].key])
    ensures Inv(At(s, g, p))
  {
    var t := At(s, g, p);
    forall h | 0 <= h < |t.getters|
      ensures GetterOk(t, h)
    {
      assert GetterOk(s, h);
      assert h == g && p.Waiting? ==> KeyOk(s, s.getters[g].key);
    }
    forall k | k in t.dialing
      ensures KeyOk(t, k)
    {
      assert KeyOk(s, k);
    }
    forall k | k in t.connections
      ensures CachedOk(t, k)
    {
      assert CachedOk(s, k);
    }
  }

  lemma ShrinkKept(s: State, connections: map<Endpoint, nat>, broken: set<nat>)
    requires Inv(s) && forall k :: k in connections ==> k in s.connections && connections[k] == s.connections[k]
    ensures Inv(s.(connections := connections, broken := broken))
  {
    var t := s.(connections := connections, broken := broken);
    forall h | 0 <= h < |t.getters|
      ensures GetterOk(t, h)
    {
      assert GetterOk(s, h);
    }
    forall k | k in t.dialing
      ensures KeyOk(t, k)
    {
      assert KeyOk(s, k);
    }
    forall k | k in t.connections
      ensures CachedOk(t, k)
    {
      assert CachedOk(s, k);
    }
  }

  lemma GetKept(s: State, key: Endpoint)
    requires Inv(s)
    ensures Inv(s.(getters := s.getters + [Getter(key, Looking)]))
  {
    var t := s.(getters := s.getters + [Getter(key, Looking)]);
    forall h | 0 <= h < |t.getters|
      ensures GetterOk(t, h)
    {
      assert h < |s.getters| ==> GetterOk(s, h);
    }
    forall k | k in t.dialing
      ensures KeyOk(t, k)
    {
      assert KeyOk(s, k);
    }
    forall k | k in t.connections
      ensures CachedOk(t, k)
    {
      assert CachedOk(s, k);
    }
  }

  /** A getter becomes the dialer of its key. */
  lemma DialerKept(s: State, g: nat)
    requires Inv(s) && g < |s.getters| && s.getters[g].phase.Looking?
    requires s.getters[g].key !in s.dialing && s.getters[g].key !in s.connections
    ensures Inv(At(s, g, Dialing(|s.channels|)).(dialing := s.dialing[s.getters[g].key := |s.channels|],
                                                channels := s.channels + [Channel(g, 0)]))
  {
    var t := At(s, g, Dialing(|s.channels|)).(dialing := s.dialing[s.getters[g].key := |s.channels|],
                                             channels := s.channels + [Channel(g, 0)]);
    forall h | 0 <= h < |t.getters|
      ensures GetterOk(t, h)
    {
      assert GetterOk(s, h);
    }
    forall k | k in t.dialing
      ensures KeyOk(t, k)
    {
      assert k in s.dialing ==> KeyOk(s, k);
    }
    forall k | k in t.connections
      ensures CachedOk(t, k)
    {
      assert CachedOk(s, k);
    }
  }

  lemma LookKept(s: State, g: nat)
    requires Inv(s) && g < |s.getters| && s.getters[g].phase.Looking?
    ensures Inv(Looked(s, g))
  {
    hide GetterOk, KeyOk, CachedOk, Inv;
    var key := s.getters[g].key;
    if key in s.connections && s.connections[key] !in s.broken {
      PhaseKept(s, g, Done(Some(s.connections[key])));
    } else {
      ShrinkKept(s, s.connections - {key}, s.broken);
      var t := s.(connections := s.connections - {key}, broken := s.broken);
      if key in s.dialing {
        PhaseKept(t, g, Waiting(s.dialing[key]));
      } else {
        DialerKept(t, g);
      }
    }
  }

  lemma DialKept(s: State, g: nat, ok: bool)
    requires Inv(s) && Apply(s, Dial(g, ok)).Some?
    ensures Inv(Apply(s, Dial(g, ok)).value)
  {
    var t := Apply(s, Dial(g, ok)).value;
    forall h | 0 <= h < |t.getters|
      ensures GetterOk(t, h)
    {
      assert GetterOk(s, h);
    }
    forall k | k in t.dialing
      ensures KeyOk(t, k)
    {
      assert KeyOk(s, k);
    }
    forall k | k in t.connections
      ensures CachedOk(t, k)
    {
      assert CachedOk(s, k);
    }
  }

  lemma FinishKept(s: State, g: nat)
    requires Inv(s) && g < |s.getters| && s.getters[g].phase.Dialed?
    ensures Inv(Finished(s, g, s.getters[g].phase.created))
  {
    var t := Finished(s, g, s.getters[g].phase.created);
    assert GetterOk(s, g) && KeyOk(s, s.getters[g].key);
    forall h | 0 <= h < |t.getters|
      ensures GetterOk(t, h)
    {
      assert GetterOk(s, h);
    }
    forall k | k in t.dialing
      ensures KeyOk(t, k)
    {
      assert KeyOk(s, k);
    }
    forall k | k in t.connections
      ensures CachedOk(t, k)
    {
      assert k in s.connections ==> CachedOk(s, k);
    }
  }

  lemma {:induction false} RunInv(labels: seq<Label>)
    requires Run(INITIAL, labels).Some?
    ensures Inv(Run(INITIAL, labels).value)
  {
    hide Inv, Apply;
    if labels != [] {
      RunInv(labels[..|labels| - 1]);
      InvKept(Run(INITIAL, labels[..|labels| - 1]).value, labels[|labels| - 1]);
    } else {
      InitialInv();
    }
  }

  lemma InitialInv()
    ensures Inv(INITIAL)
  {}

  ghost predicate Reachable(s: State) {
    exists labels :: Run(INITIAL, labels) == Some(s)
  }

  lemma ReachableInv(s: State)
    requires Reachable(s)
    ensures Inv(s)
  {
    hide Run, Inv;
    var labels :| Run(INITIAL, labels) == Some(s);
    RunInv(labels);
  }

  // ---------------------------------------------------------------------- theorems

  /** A key is dialed by exactly one getter if it is marked as being dialed, and by none otherwise;
      while it is dialed no connection is cached for it. */
  lemma SingleFlight(s: State, g: nat, h: nat)
    requires Reachable(s) && g < |s.getters| && h < |s.getters|
    ensures Dials(s.getters[g]) ==> s.getters[g].key in s.dialing && s.getters[g].key !in s.connections
    ensures Dials(s.getters[g]) && Dials(s.getters[h]) && s.getters[g].key == s.getters[h].key ==> g == h
    ensures forall k :: k in s.dialing ==>
                          exists d :: 0 <= d < |s.getters| && Dials(s.getters[d]) && s.getters[d].key == k
  {
    ReachableInv(s);
    hide Reachable;
    assert GetterOk(s, g) && GetterOk(s, h);
    assert Dials(s.getters[g]) ==> KeyOk(s, s.getters[g].key);
    forall k | k in s.dialing
      ensures exists d :: 0 <= d < |s.getters| && Dials(s.getters[d]) && s.getters[d].key == k
    {
      assert KeyOk(s, k);
    }
  }

  /** When a dial ends its channel is there to be closed, and no connection has been cached in the
      meantime: the branch that would drop the new connection is never taken. */
  lemma DialEndsAlone(s: State, g: nat)
    requires Reachable(s) && g < |s.getters| && s.getters[g].phase.Dialed?
    ensures s.getters[g].key in s.dialing && s.getters[g].key !in s.connections && !s.clash
    ensures var t, channel := Apply(s, Finish(g)).value, s.dialing[s.getters[g].key];
            && channel < |t.channels| && t.channels[channel].closed == 1
            && (s.getters[g].phase.created.Some? ==>
                  t.connections == s.connections[s.getters[g].key := s.getters[g].phase.created.value])
  {
    ReachableInv(s);
    hide Reachable;
    assert GetterOk(s, g) && KeyOk(s, s.getters[g].key);
  }

  /** No waiter channel is ever closed twice, and no waiter is forgotten: its channel is closed
      already, or somebody is still dialing for its key. */
  lemma WaitersWake(s: State, g: nat)
    requires Reachable(s) && g < |s.getters|
    ensures forall c :: 0 <= c < |s.channels| ==> s.channels[c].closed <= 1
    ensures s.getters[g].phase.Waiting? ==>
              || Apply(s, Woken(g)).Some?
              || exists d :: 0 <= d < |s.getters| && Dials(s.getters[d]) && s.getters[d].key == s.getters[g].key
                             && s.getters[d].phase.channel == s.getters[g].phase.channel
  {
    ReachableInv(s);
    hide Reachable;
    assert GetterOk(s, g);
    if s.getters[g].phase.Waiting? && s.channels[s.getters[g].phase.channel].closed == 0 {
      var k := s.getters[g].key;
      assert KeyOk(s, k);
      var d := s.channels[s.dialing[k]].opener;
      assert GetterOk(s, d);
    }
  }

  /** `Invalidate` with a connection takes away that connection and nothing else: every other key,
      and a connection that was made for the same key later, stay cached and open. */
  lemma InvalidateIsExact(s: State, key: Endpoint, conn: nat, k: Endpoint)
    requires k in s.connections
    ensures var t := Apply(s, Invalidate(key, Some(conn))).value;
            && (k in t.connections <==> !(k == key && s.connections[k] == conn))
            && (k in t.connections ==> t.connections[k] == s.connections[k])
            && (s.connections[k] != conn && s.connections[k] !in s.broken ==> s.connections[k] !in t.broken)
  {}

  /** Neither cached nor about to be. */
  predicate Gone(s: State, conn: nat) {
    && conn < |s.makers| && conn !in s.connections.Values
    && forall g :: 0 <= g < |s.getters| && Created(s.getters[g]) ==> s.getters[g].phase.created.value != conn
  }

  predicate Created(g: Getter) { g.phase.Dialed? && g.phase.created.Some? }

  lemma InvalidatedIsGone(s: State, key: Endpoint)
    requires Reachable(s) && key in s.connections
    ensures Gone(Invalidated(s, key, Some(s.connections[key])), s.connections[key])
  {
    ReachableInv(s);
    var conn, t := s.connections[key], Invalidated(s, key, Some(s.connections[key]));
    assert CachedOk(s, key);
    forall k | k in t.connections
      ensures t.connections[k] != conn
    {
      assert CachedOk(s, k);
    }
    forall g | 0 <= g < |t.getters| && Created(t.getters[g])
      ensures t.getters[g].phase.created.value != conn
    {
      assert GetterOk(s, g);
    }
  }

  lemma GoneStays(s: State, conn: nat, l: Label)
    requires Gone(s, conn) && Apply(s, l).Some?
    ensures Gone(Apply(s, l).value, conn)
  {}

  /** A connection that was invalidated is never cached again, whatever dials are under way. */
  lemma {:induction false} NeverCachedAgain(s: State, key: Endpoint, labels: seq<Label>)
    requires Reachable(s) && key in s.connections
    requires Run(Invalidated(s, key, Some(s.connections[key])), labels).Some?
    ensures s.connections[key] !in
              Run(Invalidated(s, key, Some(s.connections[key])), labels).value.connections.Values
  {
    InvalidatedIsGone(s, key);
    GoneForever(Invalidated(s, key, Some(s.connections[key])), s.connections[key], labels);
  }

  lemma {:induction false} GoneForever(s: State, conn: nat, labels: seq<Label>)
    requires Gone(s, conn) && Run(s, labels).Some?
    ensures Gone(Run(s, labels).value, conn)
  {
    hide Gone;
    if labels != [] {
      GoneForever(s, conn, labels[..|labels| - 1]);
      GoneStays(Run(s, labels[..|labels| - 1]).value, conn, labels[|labels| - 1]);
    }
  }

  /** A connection is cached under one key at most. */
  lemma CachedOnce(s: State, k: Endpoint, l: Endpoint)
    requires Reachable(s) && k in s.connections && l in s.connections && s.connections[k] == s.connections[l]
    ensures k == l
  {
    ReachableInv(s);
    hide Reachable;
    assert CachedOk(s, k) && CachedOk(s, l);
  }

  // -------------------------------------------------------------- the guarded sections

  // ------------------------------------------------------------------ what a getter gets

  /** A getter that has got a connection got one that was dialed for its own key. */
  predicate OwnConnection(s: State, g: nat)
    requires g < |s.getters|
  {
    var p := s.getters[g].phase;
    p.Done? && p.conn.Some? ==>
      && p.conn.value < |s.makers| && s.makers[p.conn.value] < |s.getters|
      && s.getters[s.makers[p.conn.value]].key == s.getters[g].key
  }

  lemma OwnKept(s: State, l: Label, g: nat)
    requires Inv(s) && Apply(s, l).Some? && g < |Apply(s, l).value.getters|
    requires g < |s.getters| ==> OwnConnection(s, g)
    ensures OwnConnection(Apply(s, l).value, g)
  {
    if l.Finish? && g == l.getter {
      OwnFinished(s, g);
    } else if l.Look? && g == l.getter {
      OwnLooked(s, g);
    } else {
      hide Inv, GetterOk, KeyOk, CachedOk;
    }
  }

  lemma OwnFinished(s: State, g: nat)
    requires Inv(s) && g < |s.getters| && s.getters[g].phase.Dialed?
    ensures OwnConnection(Finished(s, g, s.getters[g].phase.created), g)
  {
    assert GetterOk(s, g);
    hide KeyOk, CachedOk;
  }

  lemma OwnLooked(s: State, g: nat)
    requires Inv(s) && g < |s.getters| && s.getters[g].phase.Looking?
    ensures OwnConnection(Looked(s, g), g)
  {
    var key := s.getters[g].key;
    assert key in s.connections ==> CachedOk(s, key);
    hide KeyOk, GetterOk;
  }

  /** Why a getter has got nothing: its context expired while it waited, or its own dial failed. */
  predicate HasReason(labels: seq<Label>, s: State, g: nat)
    requires g < |s.getters|
  {
    var p := s.getters[g].phase;
    && (p == Done(None) ==> Expire(g) in labels || Dial(g, false) in labels)
    && (p.Dialed? && p.created.None? ==> Dial(g, false) in labels)
  }

  lemma ReasonKept(labels: seq<Label>, s: State, l: Label, g: nat)
    requires Inv(s) && Apply(s, l).Some? && g < |Apply(s, l).value.getters|
    requires g < |s.getters| ==> HasReason(labels, s, g)
    ensures HasReason(labels + [l], Apply(s, l).value, g)
  {
    hide KeyOk, CachedOk;
    assert l in labels + [l];
    assert forall m :: m in labels ==> m in labels + [l];
    if l.Finish? && g == l.getter {
      assert GetterOk(s, g);
    }
  }

  lemma {:induction false} RunGetters(labels: seq<Label>, g: nat)
    requires Run(INITIAL, labels).Some? && g < |Run(INITIAL, labels).value.getters|
    ensures OwnConnection(Run(INITIAL, labels).value, g) && HasReason(labels, Run(INITIAL, labels).value, g)
  {
    hide Inv, Apply, OwnConnection, HasReason;
    if labels != [] {
      var front, l := labels[..|labels| - 1], labels[|labels| - 1];
      var s := Run(INITIAL, front).value;
      RunInv(front);
      if g < |s.getters| {
        RunGetters(front, g);
      }
      OwnKept(s, l, g);
      ReasonKept(front, s, l, g);
      assert front + [l] == labels;
    }
  }

  /** Every run starts empty, and every step that is possible continues it; a waiter wakes if and only if
      its channel has been closed. */
  lemma RunsGoOn(s: State, l: Label)
    ensures Reachable(INITIAL)
    ensures Reachable(s) && Apply(s, l).Some? ==> Reachable(Apply(s, l).value)
    ensures l.Woken? && Reachable(s) && Apply(s, l).Some? ==>
              && l.getter < |s.getters| && s.getters[l.getter].phase.Waiting?
              && s.getters[l.getter].phase.channel < |s.channels|
              && s.channels[s.getters[l.getter].phase.channel].closed == 1
  {
    assert Run(INITIAL, []) == Some(INITIAL);
    if Reachable(s) && Apply(s, l).Some? {
      ReachableInv(s);
      var labels :| Run(INITIAL, labels) == Some(s);
      hide Inv, Looked, Finished, Invalidated;
      assert (labels + [l])[..|labels|] == labels;
      assert Run(INITIAL, labels + [l]) == Apply(s, l);
      if l.Woken? {
        ClosedOnce(s, s.getters[l.getter].phase.channel);
      }
    }
  }

  lemma ClosedOnce(s: State, c: nat)
    requires Inv(s) && c < |s.channels|
    ensures s.channels[c].closed <= 1
  {}

  /** In every run a getter that has finished either has a connection that was dialed for its key, or
      its context expired while it waited, or its own dial failed. */
  lemma GetterIsServed(labels: seq<Label>, s: State, g: nat)
    requires Run(INITIAL, labels) == Some(s) && g < |s.getters| && s.getters[g].phase.Done?
    ensures var conn := s.getters[g].phase.conn;
            if conn.Some? then
              && conn.value < |s.makers| && s.makers[conn.value] < |s.getters|
              && s.getters[s.makers[conn.value]].key == s.getters[g].key
            else Expire(g) in labels || Dial(g, false) in labels
  {
    RunGetters(labels, g);
    hide Run;
  }

  /** One look, by what is there: a cached connection that is not closed is the result, and nothing else
      changes; otherwise a closed one is dropped, and the getter waits for the dial that is under way, on
      its channel, or dials itself. */
  lemma LookDecides(s: State, g: nat)
    requires g < |s.getters| && s.getters[g].phase.Looking?
    ensures var t, key := Looked(s, g), s.getters[g].key;
            && |t.getters| == |s.getters| && t.broken == s.broken && t.makers == s.makers
            && (forall h :: 0 <= h < |s.getters| && h != g ==> t.getters[h] == s.getters[h])
            && (forall k :: k != key ==> (k in t.connections <==> k in s.connections) && (k in t.dialing <==> k in s.dialing))
            && t.getters[g].phase != Done(None)
            && (forall c: nat :: t.getters[g].phase == Done(Some(c)) <==>
                                   key in s.connections && s.connections[key] == c && c !in s.broken)
            && (t.getters[g].phase.Done? ==> t.connections == s.connections && t.dialing == s.dialing)
            && (!t.getters[g].phase.Done? ==> key !in t.connections && key in t.dialing)
            && (forall c: nat :: t.getters[g].phase == Waiting(c) <==>
                                   key in s.dialing && s.dialing[key] == c && !t.getters[g].phase.Done?)
            && (t.getters[g].phase.Dialing? <==> key !in s.dialing && !t.getters[g].phase.Done?)
  {}

  class ConnectionPool {
    var connections: map<Endpoint, nat>
    var dialing: map<Endpoint, nat>
    var getters: seq<Getter>
    var makers: seq<nat>
    var broken: set<nat>
    var channels: seq<Channel>
    ghost var clash: bool

    constructor ()
      ensures Snapshot() == INITIAL
    {
      connections, dialing, getters, makers, broken, channels, clash := map[], map[], [], [], {}, [], false;
    }

    ghost function Snapshot(): State
      reads this
    {
      State(connections, dialing, getters, makers, broken, channels, clash)
    }

    /** One turn of the loop of `Get` up to the dial or the wait. */
    method Look(g: nat)
      requires g < |getters|
      modifies this`connections, this`dialing, this`getters, this`channels
      ensures Snapshot() == Looked(old(Snapshot()), g)
    {
      var key := getters[g].key;
      if key in connections {
        var conn := connections[key];
        if conn in broken {
          connections := connections - {key};
        } else {
          getters := getters[g := getters[g].(phase := Done(Some(conn)))];
          return;
        }
      }
      assert connections == old(connections) - {key};
      if key in dialing {
        getters := getters[g := getters[g].(phase := Waiting(dialing[key]))];
      } else {
        var wait := |channels|;
        channels := channels + [Channel(g, 0)];
        dialing := dialing[key := wait];
        getters := getters[g := getters[g].(phase := Dialing(wait))];
      }
    }

    /** The section after the dial; the pool must know of the dial. */
    method Finish(g: nat, created: Option<nat>)
      requires Reachable(Snapshot()) && g < |getters| && getters[g].phase.Dialed?
      requires created == getters[g].phase.created
      modifies this`connections, this`dialing, this`getters, this`channels, this`broken, this`clash
      ensures Snapshot() == Finished(old(Snapshot()), g, created)
      ensures created.Some? ==> getters[g].phase == Done(created)
    {
      DialEndsAlone(Snapshot(), g);
      DialedKey(Snapshot(), g);
      hide Reachable;
      var key := getters[g].key;
      var wait := dialing[key];
      dialing := dialing - {key};
      channels := channels[wait := channels[wait].(closed := channels[wait].closed + 1)];
      if created.None? {
        getters := getters[g := getters[g].(phase := Done(None))];
        return;
      }
      if key in connections {
        assert false;  // another connection would be returned, and the new one closed
      }
      connections := connections[key := created.value];
      getters := getters[g := getters[g].(phase := Done(created))];
    }

    lemma DialedKey(s: State, g: nat)
      requires Reachable(s) && g < |s.getters| && s.getters[g].phase.Dialed?
      ensures s.getters[g].key in s.dialing && s.dialing[s.getters[g].key] < |s.channels|
    {
      ReachableInv(s);
      hide Reachable;
      assert GetterOk(s, g);
    }

    method Invalidate(key: Endpoint, conn: Option<nat>)
      modifies this`connections, this`broken
      ensures Snapshot() == Invalidated(old(Snapshot()), key, conn)
    {
      if key in connections {
        var cached := connections[key];
        if conn.None? || cached == conn.value {
          connections := connections - {key};
          broken := broken + {cached};
        }
      }
    }

    /** Closes every cached connection. */
    method CloseAll()
      modifies this`connections, this`broken
      ensures connections == map[] && broken == old(broken) + old(connections).Values
      ensures Apply(old(Snapshot()), Close) == Some(Snapshot())
    {
      hide Apply;
      CloseIs(Snapshot());
      while connections != map[]
        invariant broken + connections.Values == old(broken) + old(connections).Values
        decreases |connections|
      {
        var key :| key in connections;
        var conn := connections[key];
        ValuesWithout(connections, key);
        MovedOver(broken, connections.Values, (connections - {key}).Values, conn);
        broken := broken + {conn};
        connections := connections - {key};
      }
    }
  }

  lemma CloseIs(s: State)
    ensures Apply(s, Close) == Some(s.(connections := map[], broken := s.broken + s.connections.Values))
  {}

  lemma MovedOver(broken: set<nat>, all: set<nat>, rest: set<nat>, conn: nat)
    requires all == rest + {conn}
    ensures (broken + {conn}) + rest == broken + all
  {}

  lemma ValuesWithout(m: map<Endpoint, nat>, key: Endpoint)
    requires key in m
    ensures m.Values == (m - {key}).Values + {m[key]}
  {
    var rest := m - {key};
    forall v | v in m.Values && v != m[key]
      ensures v in rest.Values
    {
      var k :| k in m && m[k] == v;
      assert k in rest && rest[k] == v;
    }
  }
}
