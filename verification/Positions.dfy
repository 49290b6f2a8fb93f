/** Consumer positions (consumer/consumer.go): what every section under the consumer's lock does to
    them, and what the records of a fetch response do. */
module Positions {
  import opened Wrappers
  import opened Wire
  import opened RecordBatches
  import opened RecordBatchSets
  import opened ProducerBatches
  import opened Responses

  /** A partition and the offset a manual assignment starts it at. */
  datatype Assigned = Assigned(key: Key, offset: Int64)

  datatype State = State(
    assignment: seq<Key>,
    next: map<Key, Int64>,       // where the next fetch of a partition starts
    consumed: map<Key, Int64>,   // what a commit would commit
    paused: set<Key>)

  const INITIAL := State([], map[], map[], {})

  /** A partition without an entry is fetched from offset 0. */
  function Next(s: State, k: Key): Int64 { if k in s.next then s.next[k] else 0 }

  // ------------------------------------------------------------------ locked sections

  datatype Section =
    | Advance(key: Key, offset: Int64)            // a record was consumed
    | SeekTo(key: Key, offset: Int64)
    | AssignTo(list: seq<Assigned>)
    | Rebalance(keys: seq<Key>, offsets: map<Key, Int64>)
    | Pause(chosen: set<Key>)
    | Resume(chosen: set<Key>)

  function KeysOf(list: seq<Assigned>): (keys: seq<Key>)
    ensures |keys| == |list|
  {
    seq(|list|, i requires 0 <= i < |list| => list[i].key)
  }

  /** The last entry for a partition wins. */
  function OffsetsOf(list: seq<Assigned>): map<Key, Int64> {
    if list == [] then map[]
    else OffsetsOf(list[..|list| - 1])[list[|list| - 1].key := list[|list| - 1].offset]
  }

  lemma {:induction false} OffsetsCover(list: seq<Assigned>, k: Key)
    ensures k in OffsetsOf(list) <==> k in KeysOf(list)
  {
    if list != [] {
      var n := |list| - 1;
      OffsetsCover(list[..n], k);
      assert KeysOf(list) == KeysOf(list[..n]) + [list[n].key];
    }
  }

  /** A partition starts where its last entry says. */
  lemma {:induction false} OffsetsAreLast(list: seq<Assigned>, i: nat)
    requires i < |list| && forall j :: i < j < |list| ==> list[j].key != list[i].key
    ensures list[i].key in OffsetsOf(list) && OffsetsOf(list)[list[i].key] == list[i].offset
  {
    if i < |list| - 1 {
      OffsetsAreLast(list[..|list| - 1], i);
    }
  }

  function KeepPaused(paused: set<Key>, keys: seq<Key>): set<Key> {
    set k | k in paused && k in keys
  }

  function Apply(s: State, x: Section): State {
    match x
    case Advance(k, offset) => s.(next := s.next[k := offset], consumed := s.consumed[k := offset])
    case SeekTo(k, offset) =>
      if k in s.assignment then s.(next := s.next[k := offset], consumed := s.consumed - {k}) else s
    case AssignTo(list) =>
      if list == [] then s else State(KeysOf(list), OffsetsOf(list), map[], {})
    case Rebalance(keys, offsets) => State(keys, offsets, map[], KeepPaused(s.paused, keys))
    case Pause(ks) => s.(paused := s.paused + ks)
    case Resume(ks) => s.(paused := s.paused - ks)
  }

  function Run(s: State, sections: seq<Section>): State {
    if sections == [] then s else Apply(Run(s, sections[..|sections| - 1]), sections[|sections| - 1])
  }

  /** What would be committed is what will be fetched next, and every assigned partition has a
      position. */
  predicate Agree(s: State) {
    && (forall k :: k in s.consumed ==> k in s.next && s.consumed[k] == s.next[k])
    && forall k :: k in s.assignment ==> k in s.next
  }

  /** A rebalance brings an offset for each of its partitions. */
  predicate Complete(x: Section) {
    x.Rebalance? ==> forall k :: k in x.keys ==> k in x.offsets
  }

  lemma AgreeKept(s: State, x: Section)
    requires Agree(s) && Complete(x)
    ensures Agree(Apply(s, x))
  {
    if x.AssignTo? {
      forall k | k in KeysOf(x.list)
        ensures k in OffsetsOf(x.list)
      {
        OffsetsCover(x.list, k);
      }
    }
  }

  /** In every interleaving of consuming, seeking, assigning, rebalancing, pausing and resuming, the
      positions agree whenever the lock is free. */
  lemma {:induction false} PositionsAgree(sections: seq<Section>)
    requires forall i :: 0 <= i < |sections| ==> Complete(sections[i])
    ensures Agree(Run(INITIAL, sections))
  {
    if sections != [] {
      PositionsAgree(sections[..|sections| - 1]);
      AgreeKept(Run(INITIAL, sections[..|sections| - 1]), sections[|sections| - 1]);
    }
  }

  /** The section replaces the assignment, and forgets what was consumed. */
  predicate Swaps(x: Section) {
    x.Rebalance? || (x.AssignTo? && x.list != [])
  }

  /** Section `i` moved a partition that was not assigned, and the assignment has stayed since. */
  predicate Strays(sections: seq<Section>, i: nat) {
    && i < |sections| && sections[i].Advance?
    && sections[i].key !in Run(INITIAL, sections[..i]).assignment
    && forall j :: i < j < |sections| ==> !Swaps(sections[j])
  }

  /** A commit would commit an offset of a partition that is not assigned. */
  predicate HasStray(s: State) {
    exists k :: k in s.consumed && k !in s.assignment
  }

  /** That happens if and only if a record of such a partition was consumed after the last change of the
      assignment: moving a position does not look at the assignment, and a rebalance can come between
      a fetch and its records. */
  lemma {:induction false} StraysExactly(sections: seq<Section>)
    ensures HasStray(Run(INITIAL, sections)) <==> exists i: nat :: Strays(sections, i)
  {
    if sections != [] {
      var front, x := sections[..|sections| - 1], sections[|sections| - 1];
      StraysExactly(front);
      StrayStep(Run(INITIAL, front), x);
      assert sections == front + [x];
      hide HasStray, Strays;
      if i: nat :| Strays(front, i) {
        StraysGrow(front, x, i);
      }
      if i: nat :| Strays(sections, i) {
        StraysGrow(front, x, i);
      }
      StraysGrow(front, x, |front|);
    }
  }

  lemma StrayStep(s: State, x: Section)
    ensures HasStray(Apply(s, x)) <==> !Swaps(x) && (HasStray(s) || (x.Advance? && x.key !in s.assignment))
  {
    var t := Apply(s, x);
    if x.Advance? {
      assert x.key in t.consumed;
    }
    if k :| k in s.consumed && k !in s.assignment {
      assert Swaps(x) || k in t.consumed;
    }
  }

  lemma StraysGrow(front: seq<Section>, x: Section, i: nat)
    ensures i < |front| ==> (Strays(front + [x], i) <==> Strays(front, i) && !Swaps(x))
    ensures i == |front| ==> (Strays(front + [x], i) <==> x.Advance? && x.key !in Run(INITIAL, front).assignment)
    ensures i > |front| ==> !Strays(front + [x], i) && !Strays(front, i)
  {
    hide Run, Swaps;
    var all := front + [x];
    if i <= |front| {
      assert all[..i] == front[..i];
      assert front[..|front|] == front;
    }
    assert all[|front|] == x;
    assert forall j :: 0 <= j < |front| ==> front[j] == all[j];
  }

  // ---------------------------------------------------------------- reading a response

  datatype Fetched = Fetched(
    offset: Int64,
    timestamp: Int64,
    key: Option<Bytes>,
    value: Option<Bytes>,
    headers: seq<RecordHeader>)

  /** How the reading of a response ends. */
  datatype Ending = AllRead | Refused(code: Int16) | Malformed | Panicked

  function FetchedRecord(base: Int64, b: RecordBatch, r: Record): Fetched {
    Fetched(Cast64(Cast64(base + b.baseOffsetDelta) + r.offsetDelta), Cast64(b.baseTimestamp + r.timestampDelta),
            r.key, r.value, r.headers)
  }

  function BatchRecords(base: Int64, b: RecordBatch): (rs: seq<Fetched>)
    ensures |rs| == |b.records|
  {
    seq(|b.records|, i requires 0 <= i < |b.records| => FetchedRecord(base, b, b.records[i]))
  }

  function BatchesRecords(base: Int64, list: seq<RecordBatch>): seq<Fetched> {
    if list == [] then []
    else BatchesRecords(base, list[..|list| - 1]) + BatchRecords(base, list[|list| - 1])
  }

  /** The entries of one partition of a topic, in order. */
  function Matching(partitions: seq<FetchPartition>, id: Int32): seq<FetchPartition> {
    if partitions == [] then []
    else
      var last := partitions[|partitions| - 1];
      Matching(partitions[..|partitions| - 1], id) + (if last.partition == id then [last] else [])
  }

  /** The entries of a response for a partition, in order. */
  function Entries(topics: seq<FetchTopic>, k: Key): seq<FetchPartition> {
    if topics == [] then []
    else
      var last := topics[|topics| - 1];
      Entries(topics[..|topics| - 1], k)
      + (if last.name == Some(k.topic) then Matching(last.partitions, k.partition) else [])
  }

  function RecordBytes(entry: FetchPartition): Bytes {
    if entry.records.None? then [] else entry.records.value
  }

  /** The records of one entry: none at all unless the whole of it can be decoded. */
  function ReadEntry(base: Int64, entry: FetchPartition): (seq<Fetched>, Ending) {
    if entry.errorCode != 0 then ([], Refused(entry.errorCode))
    else
      match ParseSet(RecordBytes(entry))
      case Batches(list) => (BatchesRecords(base, list), AllRead)
      case Rejected => ([], Malformed)
      case Panics => ([], Panicked)
  }

  /** The records read up to the first entry that fails, and how the reading ends. */
  function ReadEntries(base: Int64, entries: seq<FetchPartition>): (seq<Fetched>, Ending) {
    if entries == [] then ([], AllRead)
    else
      var (front, ending) := ReadEntries(base, entries[..|entries| - 1]);
      if ending != AllRead then (front, ending)
      else
        var (rs, e) := ReadEntry(base, entries[|entries| - 1]);
        (front + rs, e)
  }

  /** Positions after these records of a partition were consumed. */
  function Moved(s: State, k: Key, rs: seq<Fetched>): State {
    if rs == [] then s else Apply(s, Advance(k, Cast64(rs[|rs| - 1].offset + 1)))
  }

  lemma MovedTwice(s: State, k: Key, a: seq<Fetched>, b: seq<Fetched>)
    ensures Moved(Moved(s, k, a), k, b) == Moved(s, k, a + b)
  {
    if b == [] {
      assert a + b == a;
    } else {
      var o := Cast64(b[|b| - 1].offset + 1);
      assert Moved(s, k, a).next[k := o] == s.next[k := o];
      assert Moved(s, k, a).consumed[k := o] == s.consumed[k := o];
    }
  }

  // ------------------------------------------------------- what a fetched record is

  /** The number of records before batch `j`. */
  function Before(list: seq<RecordBatch>, j: nat): nat
    requires j <= |list|
  {
    if j == 0 then 0 else Before(list, j - 1) + |list[j - 1].records|
  }

  lemma WrapTwice(a: int, b: int)
    ensures Cast64(Cast64(a) + b) == Cast64(a + b)
  {}

  lemma {:induction false} FlatRecord(base: Int64, list: seq<RecordBatch>, j: nat, i: nat)
    requires j < |list| && i < |list[j].records|
    ensures |BatchesRecords(base, list)| == Before(list, |list|)
    ensures Before(list, j) + i < |BatchesRecords(base, list)|
    ensures BatchesRecords(base, list)[Before(list, j) + i] == FetchedRecord(base, list[j], list[j].records[i])
  {
    var n := |list| - 1;
    hide FetchedRecord;
    FlatLength(base, list[..n]);
    BeforePrefix(list, n, n);
    if j < n {
      FlatRecord(base, list[..n], j, i);
      BeforePrefix(list, n, j);
    }
  }

  lemma {:induction false} FlatLength(base: Int64, list: seq<RecordBatch>)
    ensures |BatchesRecords(base, list)| == Before(list, |list|)
  {
    if list != [] {
      var n := |list| - 1;
      FlatLength(base, list[..n]);
      BeforePrefix(list, n, n);
    }
  }

  lemma {:induction false} BeforePrefix(list: seq<RecordBatch>, n: nat, j: nat)
    requires j <= n <= |list|
    ensures Before(list[..n], j) == Before(list, j)
  {
    if j > 0 {
      BeforePrefix(list, n, j - 1);
    }
  }

  /** The entries that are read are exactly those of the partition, under its topic's name. */
  lemma {:induction false} EntriesAreTheKeys(topics: seq<FetchTopic>, k: Key, x: FetchPartition)
    ensures x in Entries(topics, k) <==>
              exists t :: 0 <= t < |topics| && topics[t].name == Some(k.topic) && x in topics[t].partitions && x.partition == k.partition
  {
    if topics != [] {
      var n := |topics| - 1;
      EntriesAreTheKeys(topics[..n], k, x);
      MatchingAre(topics[n].partitions, k.partition, x);
      hide Matching;
      assert forall t :: 0 <= t < n ==> topics[..n][t] == topics[t];
    }
  }

  lemma {:induction false} MatchingAre(partitions: seq<FetchPartition>, id: Int32, x: FetchPartition)
    ensures x in Matching(partitions, id) <==> x in partitions && x.partition == id
  {
    if partitions != [] {
      MatchingAre(partitions[..|partitions| - 1], id, x);
      assert partitions == partitions[..|partitions| - 1] + [partitions[|partitions| - 1]];
    }
  }

  lemma EntryIs(base: Int64, entry: FetchPartition, list: seq<RecordBatch>)
    requires entry.errorCode == 0 && ParseSet(RecordBytes(entry)) == Batches(list)
    ensures ReadEntry(base, entry) == (BatchesRecords(base, list), AllRead)
  {}

  lemma FetchedFields(base: Int64, b: RecordBatch, r: Record)
    ensures var x := FetchedRecord(base, b, r);
            && x.offset == Cast64(base + b.baseOffsetDelta + r.offsetDelta)
            && x.timestamp == Cast64(b.baseTimestamp + r.timestampDelta)
            && x.key == r.key && x.value == r.value && x.headers == r.headers
  {
    WrapTwice(base + b.baseOffsetDelta, r.offsetDelta);
    hide Cast64;
  }

  /** Record `i` of batch `j` of an entry that is read: its place in what is handed out, its offset as
      the sum of the requested offset, the batch's and its own, its timestamp as the sum of the batch's
      and its own, all in 64 bits, and its own key, value and headers. */
  lemma RecordIsHandedOut(base: Int64, entry: FetchPartition, list: seq<RecordBatch>, j: nat, i: nat)
    requires entry.errorCode == 0 && ParseSet(RecordBytes(entry)) == Batches(list)
    requires j < |list| && i < |list[j].records|
    ensures var (rs, ending) := ReadEntry(base, entry);
            var b, r, n := list[j], list[j].records[i], Before(list, j) + i;
            && ending == AllRead && |rs| == Before(list, |list|) && n < |rs|
            && rs[n].offset == Cast64(base + b.baseOffsetDelta + r.offsetDelta)
            && rs[n].timestamp == Cast64(b.baseTimestamp + r.timestampDelta)
            && rs[n].key == r.key && rs[n].value == r.value && rs[n].headers == r.headers
  {
    hide *;
    EntryIs(base, entry, list);
    FlatRecord(base, list, j, i);
    FetchedFields(base, list[j], list[j].records[i]);
  }

  /** From one caller to the other: messages that were produced as one batch and are fetched from offset
      `base` come out as they were, at consecutive offsets from there, and leave the position just
      behind the last. */
  lemma ProducedIsFetched(s: State, k: Key, base: Int64, messages: seq<Message>, id: Identity, leaderEpoch: Int32,
                          now: Int64, x: Fetch, entry: FetchPartition)
    requires messages != [] && Sized31(messages) && Accepted(messages)
    requires 0 <= base && base + |messages| < 0x8000_0000_0000_0000
    requires Entries(x.topics, k) == [entry] && entry.errorCode == 0
    requires entry.records == Some(SetBytes([ProducerBatch(messages, id, leaderEpoch, now)]))
    ensures Intact(Response(base, k, x), messages, base, now)
    ensures Next(Moved(s, k, Response(base, k, x).0), k) == base + |messages|
  {
    hide *;
    OneEntry(base, k, x, entry);
    forall i | 0 <= i < |messages|
      ensures IntactAt(ReadEntry(base, entry), messages, base, now, i)
    {
      ProducedAt(base, messages, id, leaderEpoch, now, entry, i);
    }
    AllIntact(ReadEntry(base, entry), messages, base, now);
    LastMoves(s, k, ReadEntry(base, entry), messages, base, now);
  }

  /** Everything was read, and record `i` carries message `i` at offset `base + i`. */
  predicate Intact(read: (seq<Fetched>, Ending), messages: seq<Message>, base: int, timestamp: Int64) {
    && read.1 == AllRead && |read.0| == |messages|
    && forall i :: 0 <= i < |messages| ==> Carries(read.0[i], messages[i], base + i, timestamp)
  }

  predicate IntactAt(read: (seq<Fetched>, Ending), messages: seq<Message>, base: int, timestamp: Int64, i: nat)
    requires i < |messages|
  {
    read.1 == AllRead && |read.0| == |messages| && Carries(read.0[i], messages[i], base + i, timestamp)
  }

  lemma AllIntact(read: (seq<Fetched>, Ending), messages: seq<Message>, base: int, timestamp: Int64)
    requires messages != [] && forall i :: 0 <= i < |messages| ==> IntactAt(read, messages, base, timestamp, i)
    ensures Intact(read, messages, base, timestamp)
  {
    hide Carries;
    assert IntactAt(read, messages, base, timestamp, 0);
    forall i | 0 <= i < |messages|
      ensures Carries(read.0[i], messages[i], base + i, timestamp)
    {
      assert IntactAt(read, messages, base, timestamp, i);
    }
  }

  /** The record has the message's key, value and headers, this offset and this timestamp. */
  predicate Carries(r: Fetched, m: Message, offset: int, timestamp: Int64) {
    r.offset == offset && r.timestamp == timestamp && r.key == m.key && r.value == m.value && r.headers == m.headers
  }

  lemma LastMoves(s: State, k: Key, read: (seq<Fetched>, Ending), messages: seq<Message>, base: int, timestamp: Int64)
    requires Intact(read, messages, base, timestamp) && messages != []
    requires 0 <= base && base + |messages| < 0x8000_0000_0000_0000
    ensures Next(Moved(s, k, read.0), k) == base + |messages|
  {
    assert Carries(read.0[|read.0| - 1], messages[|messages| - 1], base + |messages| - 1, timestamp);
  }

  lemma OneEntry(base: Int64, k: Key, x: Fetch, entry: FetchPartition)
    requires Entries(x.topics, k) == [entry]
    ensures Response(base, k, x) == ReadEntry(base, entry)
  {
    hide ReadEntry, Entries;
    var (rs, ending) := ReadEntry(base, entry);
    assert [entry][..0] == [];
    assert ReadEntries(base, []) == ([], AllRead);
    assert ReadEntries(base, [entry]) == ([] + rs, ending);
    assert [] + rs == rs;
  }

  lemma ProducedAt(base: Int64, messages: seq<Message>, id: Identity, leaderEpoch: Int32, now: Int64,
                   entry: FetchPartition, i: nat)
    requires Sized31(messages) && Accepted(messages) && i < |messages|
    requires 0 <= base && base + |messages| < 0x8000_0000_0000_0000 && entry.errorCode == 0
    requires entry.records == Some(SetBytes([ProducerBatch(messages, id, leaderEpoch, now)]))
    ensures IntactAt(ReadEntry(base, entry), messages, base, now, i)
  {
    hide *;
    var list := ProducedList(messages, id, leaderEpoch, now, entry);
    RecordIsHandedOut(base, entry, list, 0, i);
    RecordIsMessage(messages, i);
    Small(base + i);
    Small(now);
    IntactIs(ReadEntry(base, entry), messages, base, now, i);
  }

  lemma IntactIs(read: (seq<Fetched>, Ending), messages: seq<Message>, base: int, timestamp: Int64, i: nat)
    requires i < |messages| && read.1 == AllRead && |read.0| == |messages|
    requires read.0[i].offset == base + i && read.0[i].timestamp == timestamp
    requires read.0[i].key == messages[i].key && read.0[i].value == messages[i].value
    requires read.0[i].headers == messages[i].headers
    ensures IntactAt(read, messages, base, timestamp, i)
  {}

  lemma ProducedList(messages: seq<Message>, id: Identity, leaderEpoch: Int32, now: Int64, entry: FetchPartition)
    returns (list: seq<RecordBatch>)
    requires Sized31(messages) && Accepted(messages)
    requires entry.records == Some(SetBytes([ProducerBatch(messages, id, leaderEpoch, now)]))
    ensures ParseSet(RecordBytes(entry)) == Batches(list) && |list| == 1 && list[0].records == ProtocolRecords(messages)
    ensures list[0].baseOffsetDelta == 0 && list[0].baseTimestamp == now && |messages| <= MAX_INT32
    ensures Before(list, 0) == 0 && Before(list, 1) == |messages|
  {
    AttemptDecodes(messages, id, leaderEpoch, now);
    RecordsSizeBounds(ProtocolRecords(messages));
    list := [Completed(ProducerBatch(messages, id, leaderEpoch, now))];
    hide ParseSet, SetBytes, ProtocolRecords;
  }

  lemma Small(n: int)
    requires -0x8000_0000_0000_0000 <= n < 0x8000_0000_0000_0000
    ensures Cast64(n) == n
  {}

  // ------------------------------------------------------------------------- fetching

  function Response(base: Int64, k: Key, x: Fetch): (seq<Fetched>, Ending) {
    ReadEntries(base, Entries(x.topics, k))
  }

  /** A fetch of a partition: the responses of its attempts, all for one offset. */
  datatype Round = Round(key: Key, tries: seq<Fetch>)

  function AfterTries(s: State, k: Key, base: Int64, tries: seq<Fetch>): State {
    if tries == [] then s
    else Moved(AfterTries(s, k, base, tries[..|tries| - 1]), k, Response(base, k, tries[|tries| - 1]).0)
  }

  function AfterRounds(s: State, rounds: seq<Round>): State {
    if rounds == [] then s
    else
      var before, r := AfterRounds(s, rounds[..|rounds| - 1]), rounds[|rounds| - 1];
      AfterTries(before, r.key, Next(before, r.key), r.tries)
  }

  /** What a round hands to the caller: the records of its last response. */
  function Handed(s: State, r: Round): seq<Fetched> {
    if r.tries == [] then [] else Response(Next(s, r.key), r.key, r.tries[|r.tries| - 1]).0
  }

  /** What the rounds hand to the caller for one partition. */
  function Delivered(s: State, rounds: seq<Round>, k: Key): seq<Fetched> {
    if rounds == [] then []
    else
      var front, r := rounds[..|rounds| - 1], rounds[|rounds| - 1];
      Delivered(s, front, k) + (if r.key == k then Handed(AfterRounds(s, front), r) else [])
  }

  predicate Consecutive(rs: seq<Fetched>, from: int) {
    forall i :: 0 <= i < |rs| ==> rs[i].offset == from + i
  }

  /** All records that these attempts read, whether they were handed over or not. */
  function AllRecords(k: Key, base: Int64, tries: seq<Fetch>): seq<Fetched> {
    if tries == [] then []
    else AllRecords(k, base, tries[..|tries| - 1]) + Response(base, k, tries[|tries| - 1]).0
  }

  /** What the attempts before the last one read. */
  function ReadBefore(s: State, r: Round): seq<Fetched>
    requires r.tries != []
  {
    AllRecords(r.key, Next(s, r.key), r.tries[..|r.tries| - 1])
  }

  /** What moves the position was handed over: the last response holds a record, or none before it
      did. */
  predicate Faithful(s: State, r: Round)
    requires r.tries != []
  {
    Handed(s, r) != [] || ReadBefore(s, r) == []
  }

  /** The broker's side of a round: the response that is handed over is read to its end and has
      consecutive offsets from the requested one, short of the largest; and if it is empty, the
      attempts before it were. */
  predicate Orderly(s: State, r: Round) {
    && r.tries != []
    && Response(Next(s, r.key), r.key, r.tries[|r.tries| - 1]).1 == AllRead
    && Consecutive(Handed(s, r), Next(s, r.key))
    && Next(s, r.key) + |Handed(s, r)| < 0x8000_0000_0000_0000
    && Faithful(s, r)
  }

  predicate AllOrderly(s: State, rounds: seq<Round>) {
    rounds == []
    || (AllOrderly(s, rounds[..|rounds| - 1])
        && Orderly(AfterRounds(s, rounds[..|rounds| - 1]), rounds[|rounds| - 1]))
  }

  predicate ReadsToEnd(base: Int64, entry: FetchPartition) { ReadEntry(base, entry).1 == AllRead }

  /** The number of entries that are read to their end before the first that is not. */
  function Leading(base: Int64, entries: seq<FetchPartition>): (n: nat)
    ensures n <= |entries|
  {
    if entries == [] then 0
    else
      var last := |entries| - 1;
      var n := Leading(base, entries[..last]);
      if n == last && ReadsToEnd(base, entries[last]) then |entries| else n
  }

  lemma {:induction false} LeadingReads(base: Int64, entries: seq<FetchPartition>)
    ensures forall i :: 0 <= i < Leading(base, entries) ==> ReadsToEnd(base, entries[i])
    ensures Leading(base, entries) < |entries| ==> !ReadsToEnd(base, entries[Leading(base, entries)])
  {
    hide ReadsToEnd;
    if entries != [] {
      LeadingReads(base, entries[..|entries| - 1]);
    }
  }

  lemma {:induction false} LeadingRead(base: Int64, entries: seq<FetchPartition>)
    ensures ReadEntries(base, entries).1 == AllRead <==> Leading(base, entries) == |entries|
    ensures ReadEntries(base, entries).0 == [] <==>
              forall i :: 0 <= i < Leading(base, entries) ==> ReadEntry(base, entries[i]).0 == []
  {
    hide ReadEntry;
    if entries != [] {
      LeadingRead(base, entries[..|entries| - 1]);
      EntryAllOrNothing(base, entries[|entries| - 1]);
    }
  }

  /** A failing attempt consumes nothing if and only if the entries before its first failing one hold
      no record. */
  lemma FailureConsumesNothing(base: Int64, k: Key, x: Fetch)
    requires Response(base, k, x).1 != AllRead
    ensures var entries := Entries(x.topics, k);
            var n := Leading(base, entries);
            && n < |entries| && !ReadsToEnd(base, entries[n])
            && (forall i :: 0 <= i < n ==> ReadsToEnd(base, entries[i]))
            && (Response(base, k, x).0 == [] <==> forall i :: 0 <= i < n ==> ReadEntry(base, entries[i]).0 == [])
  {
    LeadingRead(base, Entries(x.topics, k));
    LeadingReads(base, Entries(x.topics, k));
    hide ReadsToEnd, ReadEntry, ReadEntries, Entries;
  }

  lemma EntryAllOrNothing(base: Int64, entry: FetchPartition)
    ensures ReadEntry(base, entry).1 != AllRead ==> ReadEntry(base, entry).0 == []
  {
    hide ParseSet, BatchesRecords;
  }

  /** The position after any attempts stands behind the last record that any of them read. */
  lemma {:induction false} TriesMove(s: State, k: Key, base: Int64, tries: seq<Fetch>)
    ensures AfterTries(s, k, base, tries) == Moved(s, k, AllRecords(k, base, tries))
  {
    hide Response;
    if tries != [] {
      var front := tries[..|tries| - 1];
      TriesMove(s, k, base, front);
      hide Moved;
      MovedTwice(s, k, AllRecords(k, base, front), Response(base, k, tries[|tries| - 1]).0);
    }
  }

  lemma OnlyLastMoves(s: State, k: Key, a: seq<Fetched>, b: seq<Fetched>)
    ensures b != [] ==> Moved(s, k, a + b) == Moved(s, k, b)
    ensures b == [] ==> Moved(s, k, a + b) == Moved(s, k, a)
  {
    if b == [] {
      assert a + b == a;
    }
  }

  lemma RoundMoves(s: State, r: Round)
    requires r.tries != []
    ensures AfterTries(s, r.key, Next(s, r.key), r.tries) ==
            if Handed(s, r) != [] then Moved(s, r.key, Handed(s, r)) else Moved(s, r.key, ReadBefore(s, r))
  {
    TriesMove(s, r.key, Next(s, r.key), r.tries);
    hide Response, Moved;
    OnlyLastMoves(s, r.key, ReadBefore(s, r), Handed(s, r));
  }

  predicate NotBefore(rs: seq<Fetched>, from: int) {
    forall i :: 0 <= i < |rs| ==> from <= rs[i].offset < 0x7FFF_FFFF_FFFF_FFFF
  }

  lemma {:induction false} AllNotBefore(k: Key, base: Int64, tries: seq<Fetch>)
    requires forall i :: 0 <= i < |tries| ==> NotBefore(Response(base, k, tries[i]).0, base)
    ensures NotBefore(AllRecords(k, base, tries), base)
  {
    hide Response;
    if tries != [] {
      AllNotBefore(k, base, tries[..|tries| - 1]);
    }
  }

  /** A round leaves the position exactly behind what it handed over, or where it was if that is
      nothing, if and only if it hands over a record or no attempt before the last one read any:
      otherwise records were skipped.  The broker is only asked not to send records from before the
      requested offset. */
  lemma SkipsExactly(s: State, r: Round)
    requires r.tries != []
    requires forall i :: 0 <= i < |r.tries| ==> NotBefore(Response(Next(s, r.key), r.key, r.tries[i]).0, Next(s, r.key))
    ensures Next(AfterTries(s, r.key, Next(s, r.key), r.tries), r.key) == Next(Moved(s, r.key, Handed(s, r)), r.key)
            <==> Faithful(s, r)
  {
    RoundMoves(s, r);
    hide Response, Handed;
    AllNotBefore(r.key, Next(s, r.key), r.tries[..|r.tries| - 1]);
    assert NotBefore(ReadBefore(s, r), Next(s, r.key));
    hide AllRecords, AfterTries;
  }

  /** A faithful round moves the positions as its records say, whatever failed before. */
  lemma FaithfulRound(s: State, r: Round)
    requires r.tries != [] && Faithful(s, r)
    ensures AfterTries(s, r.key, Next(s, r.key), r.tries) == Moved(s, r.key, Handed(s, r))
  {
    RoundMoves(s, r);
    hide Response, Handed, AfterTries, AllRecords;
  }

  /** Over any number of rounds, of any partitions, without repositioning: what is handed to the
      caller for a partition is one run of offsets without gap or duplicate, from where the
      partition stood to just before where it stands then. */
  lemma {:induction false} Gapless(s: State, rounds: seq<Round>, k: Key)
    requires AllOrderly(s, rounds)
    ensures Consecutive(Delivered(s, rounds, k), Next(s, k))
    ensures Next(AfterRounds(s, rounds), k) == Next(s, k) + |Delivered(s, rounds, k)|
  {
    if rounds != [] {
      var front, r := rounds[..|rounds| - 1], rounds[|rounds| - 1];
      Gapless(s, front, k);
      var before := AfterRounds(s, front);
      FaithfulRound(before, r);
      hide Handed, AfterTries, Faithful;
      LastOffset(before, r);
    }
  }

  lemma LastOffset(s: State, r: Round)
    requires Orderly(s, r)
    ensures Next(Moved(s, r.key, Handed(s, r)), r.key) == Next(s, r.key) + |Handed(s, r)|
    ensures forall k :: k != r.key ==> Next(Moved(s, r.key, Handed(s, r)), k) == Next(s, k)
  {
    hide Handed, Response, Entries, Faithful;
  }

  // --------------------------------------------------------- two entries in one response

  const SOME_KEY := Key([], 0)
  const ONE_MESSAGE := [Message(None, None, [])]
  const ONE_BATCH := ProducerBatch(ONE_MESSAGE, Identity(-1, -1, -1), 0, 0)

  const ONE_RECORD := Fetched(0, 0, None, None, [])

  /** The bytes of a set with one batch of one record. */
  lemma OneBatch() returns (data: Bytes)
    ensures ReadEntry(0, FetchPartition(0, 0, 0, 0, 0, [], Some(data))) == ([ONE_RECORD], AllRead)
  {
    OneMessageFits();
    AttemptDecodes(ONE_MESSAGE, Identity(-1, -1, -1), 0, 0);
    data := SetBytes([ONE_BATCH]);
    var b := Completed(ONE_BATCH);
    hide ParseSet, SetBytes, BatchBytes, PayloadBytes, Sized31, Accepted;
    OneRecordRead(b);
  }

  lemma OneMessageFits()
    ensures Sized31(ONE_MESSAGE) && Accepted(ONE_MESSAGE)
  {
    var r := ProtocolRecord(ONE_MESSAGE[0], 0);
    assert ProtocolRecords(ONE_MESSAGE)[..0] == [] && ProtocolRecords(ONE_MESSAGE)[0] == r;
    assert RecordsSize(ProtocolRecords(ONE_MESSAGE)) == RecordSize(r) == 29;
    hide Writable;
    OneWritable(r);
  }

  lemma OneRecordRead(b: RecordBatch)
    requires b.records == ProtocolRecords(ONE_MESSAGE) && b.baseOffsetDelta == 0 && b.baseTimestamp == 0
    ensures BatchesRecords(0, [b]) == [ONE_RECORD]
  {
    assert [b][..0] == [];
    assert BatchRecords(0, b) == [ONE_RECORD];
  }

  lemma OneWritable(r: Record)
    requires r.key.None? && r.value.None? && r.headers == []
    ensures Writable(RECORD, RecordValue(r))
  {
    var parts := RecordParts(r);
    forall i | 0 <= i < 6
      ensures Writable(RECORD_FIELDS[i], parts[i])
    {}
    assert Writable(Struct(RECORD_FIELDS), RecordValue(r));
  }

  /** An unfaithful round: the second entry of a response fails, the attempt is repeated from the old
      offset, the repetition brings nothing, and the position stays behind a record that was never
      handed over. */
  lemma SecondEntryCanSkip()
    ensures exists tries ::
              && |tries| == 2
              && Response(0, SOME_KEY, tries[0]).1 == Refused(7)
              && Response(0, SOME_KEY, tries[1]).1 == AllRead
              && Handed(INITIAL, Round(SOME_KEY, tries)) == []
              && Next(AfterTries(INITIAL, SOME_KEY, 0, tries), SOME_KEY) == 1
  {
    var data := OneBatch();
    var good := FetchPartition(0, 0, 0, 0, 0, [], Some(data));
    var bad := FetchPartition(0, 7, 0, 0, 0, [], None);
    var x, y := Fetch(0, [FetchTopic(Some([]), [good, bad])]), Fetch(0, []);
    TwoEntriesRead(good, bad);
    assert Response(0, SOME_KEY, y) == ([], AllRead);
    hide Response;
    SkippedTries(x, y);
  }

  lemma SkippedTries(x: Fetch, y: Fetch)
    requires Response(0, SOME_KEY, x) == ([ONE_RECORD], Refused(7)) && Response(0, SOME_KEY, y) == ([], AllRead)
    ensures Handed(INITIAL, Round(SOME_KEY, [x, y])) == []
    ensures Next(AfterTries(INITIAL, SOME_KEY, 0, [x, y]), SOME_KEY) == 1
  {
    hide Response;
    assert [x, y][..1] == [x] && [x][..0] == [];
    assert AfterTries(INITIAL, SOME_KEY, 0, [x]) == Moved(INITIAL, SOME_KEY, [ONE_RECORD]);
    assert AfterTries(INITIAL, SOME_KEY, 0, [x, y]) == Moved(INITIAL, SOME_KEY, [ONE_RECORD]);
  }

  lemma TwoEntriesRead(good: FetchPartition, bad: FetchPartition)
    requires good.partition == bad.partition == 0 && bad.errorCode == 7
    requires ReadEntry(0, good) == ([ONE_RECORD], AllRead)
    ensures Response(0, SOME_KEY, Fetch(0, [FetchTopic(Some([]), [good, bad])])) == ([ONE_RECORD], Refused(7))
  {
    TwoEntries(good, bad);
    assert ReadEntry(0, bad) == ([], Refused(7));
    hide ReadEntry, Entries;
    assert [good, bad][..1] == [good] && [good][..0] == [];
    var none: seq<Fetched> := [];
    assert none + [ONE_RECORD] == [ONE_RECORD] && [ONE_RECORD] + none == [ONE_RECORD];
    assert ReadEntries(0, [good]) == ([ONE_RECORD], AllRead);
  }

  lemma TwoEntries(good: FetchPartition, bad: FetchPartition)
    requires good.partition == bad.partition == 0
    ensures Entries([FetchTopic(Some([]), [good, bad])], SOME_KEY) == [good, bad]
    ensures Entries([], SOME_KEY) == []
  {
    assert [good, bad][..1] == [good] && [good][..0] == [];
    assert Matching([good], 0) == [good];
    assert Matching([good, bad], 0) == [good, bad];
    assert [FetchTopic(Some([]), [good, bad])][..0] == [];
  }
}
