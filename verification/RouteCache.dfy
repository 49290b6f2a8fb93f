/** The metadata route cache (internal/metadata/manager.go): which leader a partition is routed to,
    as a function of the last metadata response and the invalidations since. */
module RouteCache {
  import opened Wrappers
  import opened Wire
  import opened Responses
  import opened SortedLists

  datatype Endpoint = Endpoint(host: Bytes, port: Int32)

  datatype Route = Route(leaderId: Int32, leaderEpoch: Int32, endpoint: Endpoint)

  // ------------------------------------------------------- routes, as the update builds them

  function BrokersOf(brokers: seq<Broker>): map<Int32, Endpoint> {
    if brokers == [] then map[]
    else
      var front, last := BrokersOf(brokers[..|brokers| - 1]), brokers[|brokers| - 1];
      if last.host.None? then front else front[last.brokerId := Endpoint(last.host.value, last.port)]
  }

  /** The routes after the first partitions of a topic were added to `routes`. */
  function AddPartitions(routes: map<Key, Route>, addresses: map<Int32, Endpoint>, topic: Bytes, partitions: seq<Partition>): map<Key, Route> {
    if partitions == [] then routes
    else
      var front := AddPartitions(routes, addresses, topic, partitions[..|partitions| - 1]);
      var p := partitions[|partitions| - 1];
      if p.errorCode != 0 || p.leaderId !in addresses then front
      else front[Key(topic, p.partition) := Route(p.leaderId, p.leaderEpoch, addresses[p.leaderId])]
  }

  function AddTopics(addresses: map<Int32, Endpoint>, topics: seq<Topic>): map<Key, Route> {
    if topics == [] then map[]
    else
      var front, last := AddTopics(addresses, topics[..|topics| - 1]), topics[|topics| - 1];
      if last.name.None? || last.errorCode != 0 then front
      else AddPartitions(front, addresses, last.name.value, last.partitions)
  }

  function RoutesOf(m: Metadata): map<Key, Route> {
    AddTopics(BrokersOf(m.brokers), m.topics)
  }

  // ------------------------------------------------------------- routes, declaratively

  /** The last broker entry with this id and a host. */
  function LastBroker(brokers: seq<Broker>, id: Int32): (i: Option<nat>)
    ensures i.Some? ==> i.value < |brokers| && brokers[i.value].brokerId == id && brokers[i.value].host.Some?
    ensures forall j :: (if i.Some? then i.value + 1 else 0) <= j < |brokers| && brokers[j].brokerId == id ==>
                          brokers[j].host.None?
  {
    if brokers == [] then None
    else
      var n := |brokers| - 1;
      if brokers[n].brokerId == id && brokers[n].host.Some? then Some(n) else LastBroker(brokers[..n], id)
  }

  /** The address of a broker is that of its last entry with a host. */
  lemma {:induction false} BrokersAreLast(brokers: seq<Broker>, id: Int32)
    ensures var i := LastBroker(brokers, id);
            && (id in BrokersOf(brokers) <==> i.Some?)
            && (i.Some? ==> BrokersOf(brokers)[id] == Endpoint(brokers[i.value].host.value, brokers[i.value].port))
  {
    if brokers != [] {
      BrokersAreLast(brokers[..|brokers| - 1], id);
    }
  }

  /** Partition entry `j` of topic entry `i` is for key `k` and routable: both are free of errors, the
      topic has a name, and the leader has an address. */
  predicate Routable(m: Metadata, i: nat, j: nat, k: Key) {
    && i < |m.topics| && m.topics[i].name == Some(k.topic) && m.topics[i].errorCode == 0
    && j < |m.topics[i].partitions| && m.topics[i].partitions[j].errorCode == 0
    && m.topics[i].partitions[j].partition == k.partition
    && m.topics[i].partitions[j].leaderId in BrokersOf(m.brokers)
  }

  function RouteAt(m: Metadata, i: nat, j: nat, k: Key): Route
    requires Routable(m, i, j, k)
  {
    var p := m.topics[i].partitions[j];
    Route(p.leaderId, p.leaderEpoch, BrokersOf(m.brokers)[p.leaderId])
  }

  /** The last routable entry for a partition id within one topic entry. */
  function LastPartition(addresses: map<Int32, Endpoint>, partitions: seq<Partition>, id: Int32): (j: Option<nat>)
    ensures j.Some? ==>
              && j.value < |partitions| && partitions[j.value].partition == id
              && partitions[j.value].errorCode == 0 && partitions[j.value].leaderId in addresses
    ensures forall l :: (if j.Some? then j.value + 1 else 0) <= l < |partitions| && partitions[l].partition == id ==>
                          partitions[l].errorCode != 0 || partitions[l].leaderId !in addresses
  {
    if partitions == [] then None
    else
      var n := |partitions| - 1;
      var p := partitions[n];
      if p.partition == id && p.errorCode == 0 && p.leaderId in addresses then Some(n)
      else LastPartition(addresses, partitions[..n], id)
  }

  /** The last routable entry for a key among the first `n` topic entries. */
  function LastEntry(m: Metadata, n: nat, k: Key): (e: Option<(nat, nat)>)
    requires n <= |m.topics|
    ensures e.Some? ==> e.value.0 < n && Routable(m, e.value.0, e.value.1, k)
    ensures forall a: nat, b: nat :: a < n && Routable(m, a, b, k) ==>
              e.Some? && (a < e.value.0 || (a == e.value.0 && b <= e.value.1))
  {
    if n == 0 then None
    else
      var t := m.topics[n - 1];
      var j := LastPartition(BrokersOf(m.brokers), t.partitions, k.partition);
      if t.name == Some(k.topic) && t.errorCode == 0 && j.Some? then Some((n - 1, j.value))
      else LastEntry(m, n - 1, k)
  }

  lemma {:induction false} PartitionsAdded(
      routes: map<Key, Route>, addresses: map<Int32, Endpoint>, topic: Bytes, partitions: seq<Partition>, k: Key)
    ensures var r := AddPartitions(routes, addresses, topic, partitions);
            var j := LastPartition(addresses, partitions, k.partition);
            if k.topic == topic && j.Some? then
              && k in r
              && r[k] == Route(partitions[j.value].leaderId, partitions[j.value].leaderEpoch,
                               addresses[partitions[j.value].leaderId])
            else (k in r <==> k in routes) && (k in r ==> r[k] == routes[k])
  {
    if partitions != [] {
      PartitionsAdded(routes, addresses, topic, partitions[..|partitions| - 1], k);
    }
  }

  lemma {:induction false} TopicsAdded(m: Metadata, n: nat, k: Key)
    requires n <= |m.topics|
    ensures var r, e := AddTopics(BrokersOf(m.brokers), m.topics[..n]), LastEntry(m, n, k);
            && (k in r <==> e.Some?)
            && (e.Some? ==> r[k] == RouteAt(m, e.value.0, e.value.1, k))
  {
    if n > 0 {
      var t := m.topics[n - 1];
      TopicsAdded(m, n - 1, k);
      assert m.topics[..n][..n - 1] == m.topics[..n - 1];
      if t.name.Some? {
        PartitionsAdded(AddTopics(BrokersOf(m.brokers), m.topics[..n - 1]), BrokersOf(m.brokers), t.name.value,
                        t.partitions, k);
      }
    }
  }

  /** A key is routed exactly when the response has a routable entry for it, and then to the leader
      that the last such entry names. */
  lemma RoutesAreLast(m: Metadata, k: Key)
    ensures var e := LastEntry(m, |m.topics|, k);
            && (k in RoutesOf(m) <==> exists i: nat, j: nat :: Routable(m, i, j, k))
            && (k in RoutesOf(m) ==>
                  && e.Some? && Routable(m, e.value.0, e.value.1, k)
                  && (var r, p := RoutesOf(m)[k], m.topics[e.value.0].partitions[e.value.1];
                      && r.leaderId == p.leaderId && r.leaderEpoch == p.leaderEpoch
                      && r.endpoint == BrokersOf(m.brokers)[p.leaderId])
                  && forall i: nat, j: nat :: Routable(m, i, j, k) ==>
                                                i < e.value.0 || (i == e.value.0 && j <= e.value.1))
  {
    TopicsAdded(m, |m.topics|, k);
    assert m.topics[..|m.topics|] == m.topics;
    hide AddTopics;
  }

  // -------------------------------------------------------------------- the cache's history

  /** What happens to the cache: a refresh swaps in a response, or a topic is invalidated. */
  datatype Event = Updated(response: Metadata) | Invalidated(topic: Bytes)

  function WithoutTopic(routes: map<Key, Route>, topic: Bytes): map<Key, Route> {
    map k | k in routes && k.topic != topic :: routes[k]
  }

  function RoutesAfter(events: seq<Event>): map<Key, Route> {
    if events == [] then map[]
    else
      match events[|events| - 1]
      case Updated(m) => RoutesOf(m)
      case Invalidated(topic) => WithoutTopic(RoutesAfter(events[..|events| - 1]), topic)
  }

  /** The position after the last update, or 0. */
  function LastUpdate(events: seq<Event>): (n: nat)
    ensures n <= |events| && (n > 0 ==> events[n - 1].Updated?)
    ensures forall i :: n <= i < |events| ==> events[i].Invalidated?
  {
    if events == [] then 0
    else if events[|events| - 1].Updated? then |events|
    else LastUpdate(events[..|events| - 1])
  }

  /** In every history the cached routes are those of the single last response, minus the topics
      invalidated since. */
  lemma {:induction false} CacheIsLastResponse(events: seq<Event>, k: Key)
    ensures var n, routes := LastUpdate(events), RoutesAfter(events);
            && (k in routes <==>
                  && n > 0 && k in RoutesOf(events[n - 1].response)
                  && forall i :: n <= i < |events| ==> events[i].topic != k.topic)
            && (k in routes ==> routes[k] == RoutesOf(events[n - 1].response)[k])
  {
    hide RoutesOf;
    if events != [] && events[|events| - 1].Invalidated? {
      CacheIsLastResponse(events[..|events| - 1], k);
    }
  }

  // ------------------------------------------------------------------------ the manager

  /** `ids` lists exactly the routed partitions of the topic, in strictly increasing order. */
  predicate Lists(ids: seq<Int32>, routes: map<Key, Route>, topic: Bytes) {
    Ascending(ids) && forall p: Int32 :: p in ids <==> Key(topic, p) in routes
  }

  class Manager {
    var response: Option<Metadata>
    var brokers: map<Int32, Endpoint>
    var routes: map<Key, Route>
    ghost var events: seq<Event>

    constructor ()
      ensures Valid() && events == []
    {
      response, brokers, routes, events := None, map[], map[], [];
    }

    /** The fields hold the last response, its brokers, and the routes of the history. */
    ghost predicate Valid()
      reads this
    {
      && routes == RoutesAfter(events)
      && var n := LastUpdate(events);
         if n == 0 then response.None? && brokers == map[]
         else response == Some(events[n - 1].response) && brokers == BrokersOf(events[n - 1].response.brokers)
    }

    /** Rebuilds brokers and routes and swaps them in. */
    method Update(m: Metadata)
      requires Valid()
      modifies this
      ensures Valid() && events == old(events) + [Updated(m)] && routes == RoutesOf(m)
    {
      var addresses := CollectBrokers(m.brokers);
      var next: map<Key, Route> := map[];
      for i := 0 to |m.topics|
        invariant next == AddTopics(addresses, m.topics[..i]) && events == old(events)
      {
        assert m.topics[..i + 1][..i] == m.topics[..i];
        var topic := m.topics[i];
        if topic.name.Some? && topic.errorCode == 0 {
          next := CollectPartitions(next, addresses, topic.name.value, topic.partitions);
        }
      }
      assert m.topics[..|m.topics|] == m.topics;
      response, brokers, routes := Some(m), addresses, next;
      events := events + [Updated(m)];
    }

    method CollectBrokers(list: seq<Broker>) returns (addresses: map<Int32, Endpoint>)
      ensures addresses == BrokersOf(list)
    {
      addresses := map[];
      for i := 0 to |list|
        invariant addresses == BrokersOf(list[..i])
      {
        assert list[..i + 1][..i] == list[..i];
        if list[i].host.Some? {
          addresses := addresses[list[i].brokerId := Endpoint(list[i].host.value, list[i].port)];
        }
      }
      assert list[..|list|] == list;
    }

    method CollectPartitions(before: map<Key, Route>, addresses: map<Int32, Endpoint>, topic: Bytes, list: seq<Partition>)
      returns (after: map<Key, Route>)
      ensures after == AddPartitions(before, addresses, topic, list)
    {
      after := before;
      for i := 0 to |list|
        invariant after == AddPartitions(before, addresses, topic, list[..i])
      {
        assert list[..i + 1][..i] == list[..i];
        var p := list[i];
        if p.errorCode == 0 && p.leaderId in addresses {
          after := after[Key(topic, p.partition) := Route(p.leaderId, p.leaderEpoch, addresses[p.leaderId])];
        }
      }
      assert list[..|list|] == list;
    }

    /** Deletes the routes of a topic, one by one. */
    method Invalidate(topic: Bytes)
      requires Valid()
      modifies this`routes, this`events
      ensures Valid() && events == old(events) + [Invalidated(topic)]
      ensures routes == WithoutTopic(old(routes), topic)
    {
      var keys := routes.Keys;
      while keys != {}
        invariant keys <= old(routes).Keys && events == old(events)
        invariant routes == map k | k in old(routes) && (k.topic != topic || k in keys) :: old(routes)[k]
        decreases |keys|
      {
        var key :| key in keys;
        if key.topic == topic {
          routes := routes - {key};
        }
        keys := keys - {key};
      }
      events := events + [Invalidated(topic)];
      assert events[..|events| - 1] == old(events);
    }

    method KnownPartitionIDs(topic: Bytes) returns (ids: seq<Int32>)
      ensures Lists(ids, routes, topic)
    {
      ids := [];
      var keys := routes.Keys;
      while keys != {}
        invariant keys <= routes.Keys && Ascending(ids)
        invariant forall p: Int32 :: p in ids <==> Key(topic, p) in routes && Key(topic, p) !in keys
        decreases |keys|
      {
        var key :| key in keys;
        if key.topic == topic {
          assert key == Key(topic, key.partition);
          var inserted := Insert(ids, key.partition);
          forall i | 0 <= i < |inserted|
            ensures -0x8000_0000 <= inserted[i] < 0x8000_0000
          {
            assert inserted[i] in inserted;
          }
          ids := inserted;
        }
        keys := keys - {key};
      }
    }

    /** Asks the bootstrap endpoints one after the other, each of which has an answer or none; the first
        response is swapped in. */
    method Refresh(answers: seq<Option<Metadata>>) returns (ok: bool)
      requires Valid()
      modifies this
      ensures Valid()
      ensures ok ==> exists i: nat :: FirstAnswer(answers, i) && events == old(events) + [Updated(answers[i].value)]
      ensures !ok ==> events == old(events) && routes == old(routes) && forall i :: 0 <= i < |answers| ==> answers[i].None?
    {
      for i := 0 to |answers|
        invariant Valid() && events == old(events) && routes == old(routes)
        invariant forall j :: 0 <= j < i ==> answers[j].None?
      {
        if answers[i].Some? {
          Update(answers[i].value);
          assert FirstAnswer(answers, i);
          return true;
        }
      }
      ok := false;
    }

    /** A cached route is returned as it is; otherwise, and always for `RefreshRoute`, the route is that
        of the first response, or there is none. */
    method FindRoute(key: Key, renew: bool, answers: seq<Option<Metadata>>) returns (route: Option<Route>)
      requires Valid()
      modifies this
      ensures Valid()
      ensures !renew && key in old(routes) ==> events == old(events) && route == Some(old(routes)[key])
      ensures renew || key !in old(routes) ==>
                forall i: nat :: FirstAnswer(answers, i) ==>
                                   && events == old(events) + [Updated(answers[i].value)]
                                   && route == RouteIn(RoutesOf(answers[i].value), key)
      ensures (renew || key !in old(routes)) && (forall i :: 0 <= i < |answers| ==> answers[i].None?) ==>
                route.None? && events == old(events) && routes == old(routes)
    {
      if !renew && key in routes {
        return Some(routes[key]);
      }
      hide RoutesOf, RoutesAfter, LastUpdate;
      var ok := Refresh(answers);
      if !ok || key !in routes {
        return None;
      }
      route := Some(routes[key]);
    }

    /** The known partitions of a topic, or else those of the first response; `None` stands for the error
        that there are none. */
    method PartitionIDs(topic: Bytes, answers: seq<Option<Metadata>>) returns (ids: Option<seq<Int32>>)
      requires Valid()
      modifies this
      ensures Valid()
      ensures ids.Some? ==> ids.value != [] && Lists(ids.value, routes, topic)
      ensures ids.None? ==> forall p: Int32 :: Key(topic, p) !in routes
      ensures (exists p: Int32 :: Key(topic, p) in old(routes)) ==> events == old(events) && routes == old(routes)
      ensures (forall p: Int32 :: Key(topic, p) !in old(routes)) ==>
                forall i: nat :: FirstAnswer(answers, i) ==> events == old(events) + [Updated(answers[i].value)]
    {
      var known := KnownPartitionIDs(topic);
      if known != [] {
        assert Key(topic, known[0]) in routes;
        return Some(known);
      }
      assert forall p: Int32 :: Key(topic, p) in routes ==> p in known;
      var ok := Refresh(answers);
      if !ok {
        return None;
      }
      known := KnownPartitionIDs(topic);
      assert forall p: Int32 :: Key(topic, p) in routes ==> p in known;
      ids := if known == [] then None else Some(known);
    }
  }

  function RouteIn(routes: map<Key, Route>, key: Key): Option<Route> {
    if key in routes then Some(routes[key]) else None
  }

  /** Endpoint `i` is the first that has an answer. */
  predicate FirstAnswer(answers: seq<Option<Metadata>>, i: nat) {
    i < |answers| && answers[i].Some? && forall j :: 0 <= j < i ==> answers[j].None?
  }
}
