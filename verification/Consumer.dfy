/** The consumer as it runs (consumer/consumer.go): its locked sections, the loops that read fetch
    responses, polling, committing and rebalancing, proved against module `Positions`. */
module Consumer {
  import opened Wrappers
  import opened Wire
  import opened RecordBatches
  import opened RecordBatchSets
  import opened RecordBatchCodec
  import opened Responses
  import opened Positions

  const ROUTE_REFRESH_ATTEMPTS: nat := 2

  // ------------------------------------------------------------------------ assignments

  /** The candidates of `left` that are not in `right`, in order. */
  function Diff(left: seq<Key>, right: seq<Key>): seq<Key> {
    if left == [] then []
    else
      var last := left[|left| - 1];
      Diff(left[..|left| - 1], right) + (if last in right then [] else [last])
  }

  lemma {:induction false} DiffIsDifference(left: seq<Key>, right: seq<Key>, k: Key)
    ensures k in Diff(left, right) <==> k in left && k !in right
  {
    if left != [] {
      DiffIsDifference(left[..|left| - 1], right, k);
      assert left == left[..|left| - 1] + [left[|left| - 1]];
    }
  }

  /** Across a rebalance, nothing is both revoked and assigned, and what a partition loses or gains
      is exactly what is announced. */
  lemma RebalanceAnnounced(before: seq<Key>, after: seq<Key>, k: Key)
    ensures var revoked, gained := Diff(before, after), Diff(after, before);
            && !(k in revoked && k in gained)
            && (k in after <==> (k in before && k !in revoked) || k in gained)
  {
    DiffIsDifference(before, after, k);
    DiffIsDifference(after, before, k);
  }

  method DiffAssignments(left: seq<Key>, right: seq<Key>) returns (diff: seq<Key>)
    ensures diff == Diff(left, right)
  {
    diff := [];
    for i := 0 to |left|
      invariant diff == Diff(left[..i], right)
    {
      assert left[..i + 1][..i] == left[..i];
      if left[i] !in right {
        diff := diff + [left[i]];
      }
    }
    assert left[..|left|] == left;
  }

  // ----------------------------------------------------------------------- offset commits

  // ----------------------------------------------------------------- what happens outside

  /** A failed send names the code of a broker's error, or none for the transport's. */
  datatype CommitReply = SendFailed(code: Option<Int16>) | WrongBody | Codes(entries: seq<(Key, Int16)>)

  /** One attempt to commit an offset: the reply, whether the context has expired then, and whether the
      coordinator can be found anew. */
  datatype CommitTrial = CommitTrial(reply: CommitReply, expired: bool, refreshed: bool)

  datatype FetchReply = Unanswered(code: Option<Int16>) | OtherBody | Answer(response: Fetch)

  /** One attempt to fetch a partition: whether there is a route, the reply, and whether the context has
      expired then. */
  datatype FetchTrial = FetchTrial(routed: bool, reply: FetchReply, expired: bool)

  /** A new route is worth an attempt: the context lives, and the transport failed, or the broker
      answered that it is not available or not the leader, or does not know the partition. */
  predicate Reroutes(code: Option<Int16>, expired: bool) {
    !expired && (code.None? || code.value == 7 || code.value == 8 || code.value == 9 || code.value == 10)
  }

  /** A fetch goes on to a second attempt: the request failed, or its response did, in such a way. */
  predicate FetchesAgain(base: Int64, key: Key, w: FetchTrial) {
    && w.routed
    && match w.reply
       case Unanswered(code) => Reroutes(code, w.expired)
       case OtherBody => false
       case Answer(response) =>
         var ending := Response(base, key, response).1;
         (ending.Malformed? && Reroutes(None, w.expired)) || (ending.Refused? && Reroutes(Some(ending.code), w.expired))
  }

  /** What an attempt brings: all the records of a response that could be read to its end. */
  function Brought(base: Int64, key: Key, w: FetchTrial): Option<seq<Fetched>> {
    if w.routed && w.reply.Answer? && Response(base, key, w.reply.response).1 == AllRead
    then Some(Response(base, key, w.reply.response).0) else None
  }

  /** The number of attempts: at most two. */
  function Tries(base: Int64, key: Key, trial: nat -> FetchTrial): nat {
    if FetchesAgain(base, key, trial(1)) then 2 else 1
  }

  /** What a fetch brings: what its last attempt does. */
  function Fetches(base: Int64, key: Key, trial: nat -> FetchTrial): Option<seq<Fetched>> {
    Brought(base, key, trial(Tries(base, key, trial)))
  }

  /** The responses that came in the first `n` attempts. */
  function Came(trial: nat -> FetchTrial, n: nat): seq<Fetch> {
    if n == 0 then []
    else Came(trial, n - 1) + (if trial(n).routed && trial(n).reply.Answer? then [trial(n).reply.response] else [])
  }

  /** A fetch that brings records hands over its last response, read to its end; a response before it
      asked for a new route. */
  lemma FetchIsRound(s: State, key: Key, trial: nat -> FetchTrial)
    ensures var base := Next(s, key);
            var r := Round(key, Came(trial, Tries(base, key, trial)));
            && |r.tries| <= 2
            && (Fetches(base, key, trial).Some? ==> Succeeded(s, r) && Handed(s, r) == Fetches(base, key, trial).value)
  {
    var base := Next(s, key);
    hide Response;
    assert Came(trial, 0) == [];
    if FetchesAgain(base, key, trial(1)) {
      assert Came(trial, 2) == Came(trial, 1) + (if trial(2).routed && trial(2).reply.Answer? then [trial(2).reply.response] else []);
    }
  }

  /** The coordinator acknowledged the offset of the partition. */
  predicate Acknowledges(reply: CommitReply, key: Key) {
    reply.Codes? && FirstCode(reply.entries, key) == Some(0)
  }

  /** A commit goes on to a second attempt: the coordinator has to be found anew, and is, or the response
      does not name the partition. */
  predicate CommitsAgain(w: CommitTrial, key: Key) {
    match w.reply
    case SendFailed(code) => !w.expired && (code.None? || code.value == 16 || code.value == 17) && w.refreshed
    case WrongBody => false
    case Codes(entries) =>
      var code := FirstCode(entries, key);
      code.None? || (!w.expired && (code.value == 16 || code.value == 17) && w.refreshed)
  }

  /** The offset of the partition is committed, in the first attempt or the second. */
  predicate Committed(key: Key, trial: (Key, nat) -> CommitTrial) {
    || Acknowledges(trial(key, 1).reply, key)
    || (CommitsAgain(trial(key, 1), key) && Acknowledges(trial(key, 2).reply, key))
  }

  /** Where a partition starts: at the committed offset, or, if there is none, where a reset puts it. */
  function StartOf(key: Key, committed: Key -> Option<Int64>, reset: Key -> Option<Int64>): Option<Int64> {
    if committed(key).Some? && committed(key).value < 0 then reset(key) else committed(key)
  }

  /** The first entry for a partition decides. */
  function FirstCode(entries: seq<(Key, Int16)>, k: Key): Option<Int16> {
    if entries == [] then None
    else if entries[0].0 == k then Some(entries[0].1)
    else FirstCode(entries[1..], k)
  }

  /** The code that counts for a partition is that of an entry for it with none before. */
  lemma {:induction false} FirstCodeDecides(entries: seq<(Key, Int16)>, k: Key, i: nat)
    requires i <= |entries| && forall j :: 0 <= j < i ==> entries[j].0 != k
    ensures i == |entries| ==> FirstCode(entries, k) == None
    ensures i < |entries| && entries[i].0 == k ==> FirstCode(entries, k) == Some(entries[i].1)
  {
    if i > 0 {
      FirstCodeDecides(entries[1..], k, i - 1);
    }
  }

  class Client {
    const grouped: bool   // a group id is configured
    var assignment: seq<Key>
    var nextOffsets: map<Key, Int64>
    var consumedOffsets: map<Key, Int64>
    var paused: set<Key>
    ghost var committed: map<Key, Int64>  // what the coordinator acknowledged last

    constructor (grouped: bool)
      ensures Snapshot() == INITIAL && this.grouped == grouped
    {
      this.grouped := grouped;
      assignment, nextOffsets, consumedOffsets, paused, committed := [], map[], map[], {}, map[];
    }

    function Snapshot(): State
      reads this
    {
      State(assignment, nextOffsets, consumedOffsets, paused)
    }

    // ------------------------------------------------------------------ positioning

    /** The partitions must not be empty. */
    method Assign(list: seq<Assigned>) returns (ok: bool)
      modifies this`assignment, this`nextOffsets, this`consumedOffsets, this`paused
      ensures Snapshot() == Apply(old(Snapshot()), AssignTo(list)) && ok == (list != [])
      ensures ok ==>
                && assignment == KeysOf(list) && nextOffsets == OffsetsOf(list) && consumedOffsets == map[] && paused == {}
      ensures !ok ==> Snapshot() == old(Snapshot())
    {
      if list == [] {
        return false;
      }
      assignment, consumedOffsets, paused := KeysOf(list), map[], {};
      nextOffsets := map[];
      for i := 0 to |list|
        invariant nextOffsets == OffsetsOf(list[..i])
        invariant assignment == KeysOf(list) && consumedOffsets == map[] && paused == {}
      {
        assert list[..i + 1][..i] == list[..i];
        nextOffsets := nextOffsets[list[i].key := list[i].offset];
      }
      assert list[..|list|] == list;
      ok := true;
    }

    method Seek(key: Key, offset: Int64) returns (ok: bool)
      modifies this`nextOffsets, this`consumedOffsets
      ensures Snapshot() == Apply(old(Snapshot()), SeekTo(key, offset)) && ok == (key in assignment)
      ensures ok ==> nextOffsets == old(nextOffsets)[key := offset] && consumedOffsets == old(consumedOffsets) - {key}
      ensures !ok ==> nextOffsets == old(nextOffsets) && consumedOffsets == old(consumedOffsets)
    {
      if key !in assignment {
        return false;
      }
      nextOffsets := nextOffsets[key := offset];
      consumedOffsets := consumedOffsets - {key};
      ok := true;
    }

    /** Pausing and resuming take effect whether the partitions are assigned or not. */
    method Pause(keys: seq<Key>)
      modifies this`paused
      ensures forall k :: k in paused <==> k in old(paused) || k in keys
      ensures Snapshot() == Apply(old(Snapshot()), Section.Pause(set k | k in keys))
    {
      for i := 0 to |keys|
        invariant forall k :: k in paused <==> k in old(paused) || k in keys[..i]
      {
        assert keys[..i + 1] == keys[..i] + [keys[i]];
        paused := paused + {keys[i]};
      }
      assert keys[..|keys|] == keys;
      assert paused == old(paused) + set k | k in keys;
    }

    method Resume(keys: seq<Key>)
      modifies this`paused
      ensures forall k :: k in paused <==> k in old(paused) && k !in keys
      ensures Snapshot() == Apply(old(Snapshot()), Section.Resume(set k | k in keys))
    {
      for i := 0 to |keys|
        invariant forall k :: k in paused <==> k in old(paused) && k !in keys[..i]
      {
        assert keys[..i + 1] == keys[..i] + [keys[i]];
        paused := paused - {keys[i]};
      }
      assert keys[..|keys|] == keys;
      assert paused == old(paused) - set k | k in keys;
    }

    /** Gathers an offset for every partition first; only then the assignment is swapped, as a
        whole. */
    method AssignWithOffsets(keys: seq<Key>, committed: Key -> Option<Int64>, reset: Key -> Option<Int64>)
      returns (ok: bool, revoked: seq<Key>, added: seq<Key>)
      modifies this`assignment, this`nextOffsets, this`consumedOffsets, this`paused
      ensures ok <==> forall i :: 0 <= i < |keys| ==> StartOf(keys[i], committed, reset).Some?
      ensures !ok ==> Snapshot() == old(Snapshot())
      ensures ok ==>
                && assignment == keys && consumedOffsets == map[] && paused == (set k | k in old(paused) && k in keys)
                && (forall k :: k in nextOffsets <==> k in keys)
                && (forall k :: k in keys ==> Some(nextOffsets[k]) == StartOf(k, committed, reset))
                && Snapshot() == Apply(old(Snapshot()), Rebalance(keys, nextOffsets)) && Complete(Rebalance(keys, nextOffsets))
      ensures ok ==> revoked == Diff(old(assignment), keys) && added == Diff(keys, old(assignment))
    {
      revoked, added := [], [];
      var offsets: map<Key, Int64> := map[];
      for i := 0 to |keys|
        invariant forall k :: k in offsets <==> k in keys[..i]
        invariant forall k :: k in offsets ==> Some(offsets[k]) == StartOf(k, committed, reset)
        invariant forall j :: 0 <= j < i ==> StartOf(keys[j], committed, reset).Some?
      {
        assert keys[..i + 1] == keys[..i] + [keys[i]];
        var offset := committed(keys[i]);
        if offset.Some? && offset.value < 0 {
          offset := reset(keys[i]);
        }
        if offset.None? {
          return false, revoked, added;
        }
        offsets := offsets[keys[i] := offset.value];
      }
      assert keys[..|keys|] == keys;
      revoked := DiffAssignments(assignment, keys);
      added := DiffAssignments(keys, assignment);
      var stay := StillPaused(keys);
      assignment, nextOffsets, consumedOffsets, paused := keys, offsets, map[], stay;
      assert Complete(Rebalance(keys, offsets));
      ok := true;
    }

    method StillPaused(keys: seq<Key>) returns (stay: set<Key>)
      ensures stay == KeepPaused(paused, keys)
    {
      stay := {};
      for i := 0 to |keys|
        invariant stay == KeepPaused(paused, keys[..i])
      {
        assert keys[..i + 1] == keys[..i] + [keys[i]];
        if keys[i] in paused {
          stay := stay + {keys[i]};
        }
      }
      assert keys[..|keys|] == keys;
    }

    // --------------------------------------------------------------------- consuming

    /** Hands out the records of a batch; each moves the positions under the lock. */
    method ConsumeBatch(key: Key, base: Int64, batch: RecordBatch) returns (rs: seq<Fetched>)
      modifies this`nextOffsets, this`consumedOffsets
      ensures rs == BatchRecords(base, batch) && Snapshot() == Moved(old(Snapshot()), key, rs)
    {
      rs := [];
      var baseOffset := Cast64(base + batch.baseOffsetDelta);
      hide Cast64;
      for i := 0 to |batch.records|
        invariant rs == BatchRecords(base, batch)[..i]
        invariant Snapshot() == Moved(old(Snapshot()), key, rs)
      {
        var record := batch.records[i];
        var offset: int := Cast64(baseOffset + record.offsetDelta);
        var nextOffset := Cast64(offset + 1);
        var one := Fetched(offset, Cast64(batch.baseTimestamp + record.timestampDelta), record.key, record.value,
                           record.headers);
        MovedTwice(old(Snapshot()), key, rs, [one]);
        rs := rs + [one];
        nextOffsets := nextOffsets[key := nextOffset];
        consumedOffsets := consumedOffsets[key := nextOffset];
      }
    }

    /** One entry of a response. */
    method ConsumeEntry(key: Key, base: Int64, entry: FetchPartition) returns (rs: seq<Fetched>, ending: Ending)
      modifies this`nextOffsets, this`consumedOffsets
      ensures (rs, ending) == ReadEntry(base, entry) && Snapshot() == Moved(old(Snapshot()), key, rs)
    {
      hide Moved, ParseSet, BatchRecords;
      NothingMoved(Snapshot(), key);
      rs := [];
      if entry.errorCode != 0 {
        return rs, Refused(entry.errorCode);
      }
      var parsed := DecodeRecordBatchSet(RecordBytes(entry));
      match parsed
      case Rejected => return rs, Malformed;
      case Panics => return rs, Panicked;
      case Batches(list) =>
        for i := 0 to |list|
          invariant rs == BatchesRecords(base, list[..i]) && Snapshot() == Moved(old(Snapshot()), key, rs)
        {
          assert list[..i + 1][..i] == list[..i];
          var more := ConsumeBatch(key, base, list[i]);
          MovedTwice(old(Snapshot()), key, rs, more);
          rs := rs + more;
        }
        assert list[..|list|] == list;
        ending := AllRead;
    }

    lemma NothingMoved(s: State, k: Key)
      ensures Moved(s, k, []) == s
    {}

    /** The entries of one topic of a response, after the records `before` of earlier topics. */
    method ConsumeTopic(key: Key, base: Int64, earlier: seq<FetchTopic>, partitions: seq<FetchPartition>, before: seq<Fetched>)
      returns (rs: seq<Fetched>, ending: Ending, ghost n: nat, ghost more: seq<Fetched>)
      requires ReadEntries(base, Entries(earlier, key)) == (before, AllRead)
      modifies this`nextOffsets, this`consumedOffsets
      ensures n <= |partitions| && (ending == AllRead ==> n == |partitions|)
      ensures (rs, ending) == ReadEntries(base, Entries(earlier, key) + Matching(partitions[..n], key.partition))
      ensures rs == before + more && Snapshot() == Moved(old(Snapshot()), key, more)
    {
      hide Moved, ReadEntry, Entries;
      rs, ending, n, more := before, AllRead, 0, [];
      NothingMoved(Snapshot(), key);
      assert Entries(earlier, key) + [] == Entries(earlier, key);
      assert before + more == before;
      for i := 0 to |partitions|
        invariant (rs, AllRead) == ReadEntries(base, Entries(earlier, key) + Matching(partitions[..i], key.partition))
        invariant rs == before + more && Snapshot() == Moved(old(Snapshot()), key, more)
      {
        assert partitions[..i + 1][..i] == partitions[..i];
        if partitions[i].partition == key.partition {
          ghost var entries := Entries(earlier, key) + Matching(partitions[..i], key.partition);
          var one, e := ConsumeEntry(key, base, partitions[i]);
          OneMoreEntry(base, entries, partitions[i]);
          assert entries + [partitions[i]] == Entries(earlier, key) + Matching(partitions[..i + 1], key.partition);
          MovedTwice(old(Snapshot()), key, more, one);
          assert rs + one == before + (more + one);
          more := more + one;
          rs := rs + one;
          if e != AllRead {
            ending, n := e, i + 1;
            return;
          }
        } else {
          assert Matching(partitions[..i + 1], key.partition) == Matching(partitions[..i], key.partition);
        }
      }
      n := |partitions|;
    }

    lemma OneMoreEntry(base: Int64, entries: seq<FetchPartition>, entry: FetchPartition)
      requires ReadEntries(base, entries).1 == AllRead
      ensures ReadEntries(base, entries + [entry])
           == (ReadEntries(base, entries).0 + ReadEntry(base, entry).0, ReadEntry(base, entry).1)
    {
      hide ReadEntry;
      assert (entries + [entry])[..|entries|] == entries;
    }

    lemma {:induction false} ReadStops(base: Int64, entries: seq<FetchPartition>, rest: seq<FetchPartition>)
      requires ReadEntries(base, entries).1 != AllRead
      ensures ReadEntries(base, entries + rest) == ReadEntries(base, entries)
    {
      hide ReadEntry;
      if rest == [] {
        assert entries + rest == entries;
      } else {
        ReadStops(base, entries, rest[..|rest| - 1]);
        assert (entries + rest)[..|entries + rest| - 1] == entries + rest[..|rest| - 1];
      }
    }

    lemma {:induction false} MatchingPrefix(partitions: seq<FetchPartition>, n: nat, id: Int32) returns (rest: seq<FetchPartition>)
      requires n <= |partitions|
      ensures Matching(partitions, id) == Matching(partitions[..n], id) + rest
    {
      if n == |partitions| {
        assert partitions[..n] == partitions;
        rest := [];
      } else {
        var m := |partitions| - 1;
        var r := MatchingPrefix(partitions[..m], n, id);
        assert partitions[..m][..n] == partitions[..n];
        rest := r + (if partitions[m].partition == id then [partitions[m]] else []);
      }
    }

    lemma {:induction false} EntriesPrefix(topics: seq<FetchTopic>, n: nat, k: Key) returns (rest: seq<FetchPartition>)
      requires n <= |topics|
      ensures Entries(topics, k) == Entries(topics[..n], k) + rest
    {
      if n == |topics| {
        assert topics[..n] == topics;
        rest := [];
      } else {
        var m := |topics| - 1;
        var r := EntriesPrefix(topics[..m], n, k);
        assert topics[..m][..n] == topics[..n];
        rest := r + (if topics[m].name == Some(k.topic) then Matching(topics[m].partitions, k.partition) else []);
      }
    }

    /** Hands out the records of a response for one partition, entry by entry, until one fails. */
    method ToRecords(key: Key, base: Int64, response: Fetch) returns (rs: seq<Fetched>, ending: Ending)
      modifies this`nextOffsets, this`consumedOffsets
      ensures (rs, ending) == Response(base, key, response) && Snapshot() == Moved(old(Snapshot()), key, rs)
    {
      hide Moved, ReadEntry, Entries, Matching;
      var topics := response.topics;
      rs, ending := [], AllRead;
      NothingMoved(Snapshot(), key);
      NoEntries(base, key);
      for i := 0 to |topics|
        invariant ending == AllRead && (rs, AllRead) == ReadEntries(base, Entries(topics[..i], key))
        invariant Snapshot() == Moved(old(Snapshot()), key, rs)
      {
        TopicEntries(topics, i, key);
        if topics[i].name == Some(key.topic) {
          ghost var before := rs;
          ghost var n, more;
          rs, ending, n, more := ConsumeTopic(key, base, topics[..i], topics[i].partitions, rs);
          MovedTwice(old(Snapshot()), key, before, more);
          assert topics[i].partitions[..|topics[i].partitions|] == topics[i].partitions;
          if ending != AllRead {
            TopicStops(base, key, topics, i, n, rs, ending);
            return;
          }
        }
      }
      assert topics[..|topics|] == topics;
    }

    /** An entry that fails within one topic ends the reading of the whole response. */
    lemma TopicStops(base: Int64, key: Key, topics: seq<FetchTopic>, i: nat, n: nat, rs: seq<Fetched>, ending: Ending)
      requires i < |topics| && topics[i].name == Some(key.topic) && n <= |topics[i].partitions| && ending != AllRead
      requires (rs, ending) ==
               ReadEntries(base, Entries(topics[..i], key) + Matching(topics[i].partitions[..n], key.partition))
      ensures (rs, ending) == ReadEntries(base, Entries(topics, key))
    {
      hide *;
      TopicEntries(topics, i, key);
      var rest1 := MatchingPrefix(topics[i].partitions, n, key.partition);
      var rest2 := EntriesPrefix(topics, i + 1, key);
      var entries := Entries(topics[..i], key) + Matching(topics[i].partitions[..n], key.partition);
      ReadStops(base, entries, rest1);
      assert Entries(topics[..i + 1], key) == entries + rest1;
      ReadStops(base, Entries(topics[..i + 1], key), rest2);
    }

    lemma NoEntries(base: Int64, k: Key)
      ensures ReadEntries(base, Entries([], k)) == ([], AllRead)
    {}

    lemma TopicEntries(topics: seq<FetchTopic>, i: nat, k: Key)
      requires i < |topics|
      ensures var front := Entries(topics[..i], k);
              Entries(topics[..i + 1], k) ==
              if topics[i].name == Some(k.topic) then front + Matching(topics[i].partitions, k.partition) else front
    {
      assert topics[..i + 1][..i] == topics[..i];
      assert Entries(topics[..i], k) + [] == Entries(topics[..i], k);
    }

    // ---------------------------------------------------------------------- fetching

    /** One fetch of a partition: up to two attempts, always for the position read at the start. */
    method FetchPartition(key: Key, trial: nat -> FetchTrial) returns (records: Option<seq<Fetched>>, ghost tries: seq<Fetch>)
      modifies this`nextOffsets, this`consumedOffsets
      ensures records == Fetches(Next(old(Snapshot()), key), key, trial)
      ensures tries == Came(trial, Tries(Next(old(Snapshot()), key), key, trial))
      ensures Snapshot() == AfterTries(old(Snapshot()), key, Next(old(Snapshot()), key), tries)
    {
      hide Response, Moved, Brought, FetchesAgain, ShouldRefreshRoute;
      var fetchOffset := if key in nextOffsets then nextOffsets[key] else 0;
      tries, records := [], None;
      for attempt := 1 to ROUTE_REFRESH_ATTEMPTS + 1
        invariant tries == Came(trial, attempt - 1)
        invariant attempt > 1 ==> FetchesAgain(fetchOffset, key, trial(1)) && attempt <= 2
        invariant Snapshot() == AfterTries(old(Snapshot()), key, fetchOffset, tries)
      {
        ghost var came;
        var again;
        records, again, came := FetchOnce(key, fetchOffset, trial(attempt));
        AfterMore(old(Snapshot()), key, fetchOffset, tries, came);
        tries := tries + came;
        if records.Some? || attempt == ROUTE_REFRESH_ATTEMPTS || !again {
          return;
        }
      }
    }

    lemma AfterMore(s: State, key: Key, base: Int64, tries: seq<Fetch>, came: seq<Fetch>)
      requires |came| <= 1
      ensures AfterTries(s, key, base, tries + came) ==
              if came == [] then AfterTries(s, key, base, tries)
              else Moved(AfterTries(s, key, base, tries), key, Response(base, key, came[0]).0)
    {
      hide Response, Moved;
      if came == [] {
        assert tries + came == tries;
      } else {
        assert (tries + came)[..|tries|] == tries;
      }
    }

    /** One attempt; `again` tells whether a second one is worth it. */
    method FetchOnce(key: Key, fetchOffset: Int64, w: FetchTrial)
      returns (records: Option<seq<Fetched>>, again: bool, ghost came: seq<Fetch>)
      modifies this`nextOffsets, this`consumedOffsets
      ensures records == Brought(fetchOffset, key, w) && again == FetchesAgain(fetchOffset, key, w)
      ensures came == if w.routed && w.reply.Answer? then [w.reply.response] else []
      ensures Snapshot() ==
              if came == [] then old(Snapshot()) else Moved(old(Snapshot()), key, Response(fetchOffset, key, came[0]).0)
      ensures records.Some? ==> came != [] && Response(fetchOffset, key, came[0]) == (records.value, AllRead)
      ensures again ==> records.None?
    {
      hide Response, Moved;
      records, again, came := None, false, [];
      if !w.routed {
        return;
      }
      if w.reply.Unanswered? {
        again := Reroutes(w.reply.code, w.expired);
        return;
      }
      if w.reply.OtherBody? {
        return;
      }
      var rs, ending := ToRecords(key, fetchOffset, w.reply.response);
      came := [w.reply.response];
      if ending == AllRead {
        records := Some(rs);
      } else {
        again := ShouldRefreshRoute(ending, w.expired);
      }
    }

    /** One poll: every assigned partition that is not paused is fetched once, in order; the first
        failure ends the poll, and what was fetched before it is not handed out. */
    method Poll(trial: Key -> (nat -> FetchTrial)) returns (records: Option<seq<(Key, seq<Fetched>)>>, ghost rounds: seq<Round>)
      modifies this`nextOffsets, this`consumedOffsets
      ensures Snapshot() == AfterRounds(old(Snapshot()), rounds)
      ensures records.Some? ==> Handouts(old(Snapshot()), rounds, records.value)
      ensures records.Some? ==> RoundKeys(rounds) == Unpaused(old(assignment), old(paused))
      ensures records.None? ==>
                rounds != [] && RoundKeys(rounds) <= Unpaused(old(assignment), old(paused))
                && Fails(old(Snapshot()), rounds, trial)
    {
      hide AfterTries, Response, Handed, Fetches, Came, Tries, Succeeded;
      var list: seq<(Key, seq<Fetched>)> := [];
      rounds, records := [], None;
      for i := 0 to |assignment|
        invariant assignment == old(assignment) && paused == old(paused)
        invariant Snapshot() == AfterRounds(old(Snapshot()), rounds)
        invariant Handouts(old(Snapshot()), rounds, list)
        invariant RoundKeys(rounds) == Unpaused(assignment[..i], paused)
      {
        assert assignment[..i + 1][..i] == assignment[..i];
        if assignment[i] !in paused {
          ghost var before := Snapshot();
          var fetched, tries := FetchPartition(assignment[i], trial(assignment[i]));
          ghost var round := Round(assignment[i], tries);
          assert (rounds + [round])[..|rounds|] == rounds;
          RoundKeysGrow(rounds, round);
          if fetched.None? {
            UnpausedGrows(assignment, i + 1, paused);
            rounds := rounds + [round];
            return;
          }
          FetchIsRound(before, assignment[i], trial(assignment[i]));
          HandoutsGrow(old(Snapshot()), rounds, list, round, fetched.value);
          rounds := rounds + [round];
          list := list + [(assignment[i], fetched.value)];
        }
      }
      assert assignment[..|assignment|] == assignment;
      records := Some(list);
    }

    // ------------------------------------------------------------------- committing

    /** Commits every consumed offset, one request at a time, with at most two attempts each. */
    method Commit(known: bool, trial: (Key, nat) -> CommitTrial) returns (ok: bool)
      modifies this`committed
      ensures ok <==> grouped && (consumedOffsets == map[] || (known && forall k :: k in consumedOffsets ==> Committed(k, trial)))
      ensures ok ==> forall k :: k in consumedOffsets ==> k in committed && committed[k] == consumedOffsets[k]
      ensures forall k :: k in committed && !(k in old(committed) && old(committed)[k] == committed[k]) ==>
                            k in consumedOffsets && committed[k] == consumedOffsets[k] && Committed(k, trial)
    {
      hide Committed;
      if !grouped {
        return false;
      }
      var snapshot := consumedOffsets;
      if snapshot == map[] {
        return true;
      }
      if !known {
        return false;
      }
      var left := snapshot.Keys;
      while left != {}
        invariant left <= snapshot.Keys
        invariant forall k :: k in snapshot && k !in left ==> k in committed && committed[k] == snapshot[k] && Committed(k, trial)
        invariant forall k :: k in committed && !(k in old(committed) && old(committed)[k] == committed[k]) ==>
                                k in snapshot && committed[k] == snapshot[k] && Committed(k, trial)
        decreases |left|
      {
        var key :| key in left;
        var acknowledged := CommitOne(key, snapshot[key], trial);
        if !acknowledged {
          return false;
        }
        left := left - {key};
      }
      ok := true;
    }

    method CommitOne(key: Key, offset: Int64, trial: (Key, nat) -> CommitTrial) returns (ok: bool)
      modifies this`committed
      ensures ok <==> Committed(key, trial)
      ensures committed == (if ok then old(committed)[key := offset] else old(committed))
    {
      for attempt := 1 to ROUTE_REFRESH_ATTEMPTS + 1
        invariant committed == old(committed)
        invariant attempt > 1 ==> CommitsAgain(trial(key, 1), key) && !Acknowledges(trial(key, 1).reply, key)
        invariant attempt > 2 ==> !Acknowledges(trial(key, 2).reply, key)
      {
        var w := trial(key, attempt);
        match w.reply
        case SendFailed(failure) =>
          if !(attempt < ROUTE_REFRESH_ATTEMPTS && RefreshesCoordinator(failure, w.expired) && w.refreshed) {
            return false;
          }
        case WrongBody =>
          return false;
        case Codes(entries) =>
          var code := FirstCode(entries, key);
          if code == Some(0) {
            committed := committed[key := offset];
            return true;
          }
          if code.Some? && !(attempt < ROUTE_REFRESH_ATTEMPTS && RefreshesCoordinator(code, w.expired) && w.refreshed) {
            return false;
          }
      }
      ok := false;
    }
  }

  /** The metadata is refreshed for broker and leader errors, and for errors without a code. */
  predicate ShouldRefreshRoute(ending: Ending, expired: bool) {
    !expired && (ending.Malformed? || (ending.Refused? && ending.code in {7, 8, 9, 10}))
  }

  /** The coordinator is looked for again when it is not available or not the coordinator, and for errors
      without a code. */
  predicate RefreshesCoordinator(code: Option<Int16>, expired: bool) {
    !expired && (code.None? || code.value in {16, 17})
  }

  /** The last of the rounds is one that brought nothing. */
  predicate Fails(s: State, rounds: seq<Round>, trial: Key -> (nat -> FetchTrial))
    requires rounds != []
  {
    var n := |rounds| - 1;
    Fetches(Next(AfterRounds(s, rounds[..n]), rounds[n].key), rounds[n].key, trial(rounds[n].key)).None?
  }

  /** The partitions that are polled are those assigned and not paused. */
  lemma {:induction false} UnpausedAre(keys: seq<Key>, paused: set<Key>, k: Key)
    ensures k in Unpaused(keys, paused) <==> k in keys && k !in paused
  {
    if keys != [] {
      UnpausedAre(keys[..|keys| - 1], paused, k);
      assert keys == keys[..|keys| - 1] + [keys[|keys| - 1]];
    }
  }

  lemma {:induction false} UnpausedGrows(keys: seq<Key>, n: nat, paused: set<Key>)
    requires n <= |keys|
    ensures Unpaused(keys[..n], paused) <= Unpaused(keys, paused)
    decreases |keys|
  {
    if n < |keys| {
      UnpausedGrows(keys[..|keys| - 1], n, paused);
      assert keys[..|keys| - 1][..n] == keys[..n];
    } else {
      assert keys[..n] == keys;
    }
  }

  /** `list` is what the rounds hand out, round by round. */
  predicate Handouts(s: State, rounds: seq<Round>, list: seq<(Key, seq<Fetched>)>) {
    |rounds| == |list|
    && (rounds == []
        || (var n := |rounds| - 1;
            Handouts(s, rounds[..n], list[..n])
            && Succeeded(AfterRounds(s, rounds[..n]), rounds[n])
            && list[n] == (rounds[n].key, Handed(AfterRounds(s, rounds[..n]), rounds[n]))))
  }

  /** The last response of a round was read to its end; the ones before it asked for a new route. */
  predicate Succeeded(s: State, r: Round) {
    && 0 < |r.tries| <= ROUTE_REFRESH_ATTEMPTS
    && Response(Next(s, r.key), r.key, r.tries[|r.tries| - 1]).1 == AllRead
    && forall i :: 0 <= i < |r.tries| - 1 ==>
                     ShouldRefreshRoute(Response(Next(s, r.key), r.key, r.tries[i]).1, false)
  }

  function RoundKeys(rounds: seq<Round>): (keys: seq<Key>)
    ensures |keys| == |rounds|
  {
    seq(|rounds|, i requires 0 <= i < |rounds| => rounds[i].key)
  }

  function Unpaused(keys: seq<Key>, paused: set<Key>): seq<Key> {
    if keys == [] then []
    else
      var last := keys[|keys| - 1];
      Unpaused(keys[..|keys| - 1], paused) + (if last in paused then [] else [last])
  }

  lemma RoundKeysGrow(rounds: seq<Round>, r: Round)
    ensures RoundKeys(rounds + [r]) == RoundKeys(rounds) + [r.key]
  {}

  /** A successful round meets what `Gapless` asks of the client; the rest is up to the broker. */
  lemma SucceededIsOrderly(s: State, r: Round)
    requires Succeeded(s, r)
    ensures Orderly(s, r) <==>
              && Consecutive(Handed(s, r), Next(s, r.key))
              && Next(s, r.key) + |Handed(s, r)| < 0x8000_0000_0000_0000
              && Faithful(s, r)
    ensures |r.tries| == 1 ==> Faithful(s, r)
  {
    hide Response, Handed;
  }

  lemma HandoutsGrow(s: State, rounds: seq<Round>, list: seq<(Key, seq<Fetched>)>, r: Round, rs: seq<Fetched>)
    requires Handouts(s, rounds, list) && Handed(AfterRounds(s, rounds), r) == rs
    requires Succeeded(AfterRounds(s, rounds), r)
    ensures Handouts(s, rounds + [r], list + [(r.key, rs)])
  {
    hide Handed, AfterRounds, Succeeded;
    assert (rounds + [r])[..|rounds|] == rounds && (list + [(r.key, rs)])[..|list|] == list;
  }
}
