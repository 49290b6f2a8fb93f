/** From a producer's records to the bytes of a produce request: the batch that is built, its
    exact encoded size, and what the worker's byte counter says about it (producer/producer.go
    and producer/async.go). */
module ProducerBatches {
  import opened Wrappers
  import opened Wire
  import opened Crc32c
  import opened RecordBatches
  import opened RecordBatchSets

  /** What a caller asks to send; the topic and the partition are in the key. */
  datatype Message = Message(key: Option<Bytes>, value: Option<Bytes>, headers: seq<RecordHeader>)

  datatype Identity = Identity(producerId: Int64, epoch: Int16, baseSequence: Int32)

  function ProtocolRecord(m: Message, index: nat): Record {
    Record(0, 0, Cast32(index), m.key, m.value, m.headers)
  }

  function ProtocolRecords(messages: seq<Message>): (records: seq<Record>)
    ensures |records| == |messages|
  {
    seq(|messages|, i requires 0 <= i < |messages| => ProtocolRecord(messages[i], i))
  }

  /** Record `i` has index `i` and what the caller gave, and nothing else. */
  lemma RecordIsMessage(messages: seq<Message>, i: nat)
    requires i < |messages| <= MAX_INT32
    ensures var r := ProtocolRecords(messages)[i];
            && r.attributes == 0 && r.timestampDelta == 0 && r.offsetDelta == i
            && r.key == messages[i].key && r.value == messages[i].value && r.headers == messages[i].headers
  {}

  method ToProtocolRecords(messages: seq<Message>) returns (records: seq<Record>)
    ensures records == ProtocolRecords(messages)
    ensures |records| == |messages|
    ensures forall i :: 0 <= i < |messages| ==>
                          && records[i].offsetDelta == Cast32(i) && records[i].key == messages[i].key
                          && records[i].value == messages[i].value && records[i].headers == messages[i].headers
  {
    records := [];
    for index := 0 to |messages|
      invariant |records| == index
      invariant forall i :: 0 <= i < index ==> records[i] == ProtocolRecord(messages[i], i)
    {
      var m := messages[index];
      records := records + [Record(0, 0, Cast32(index), m.key, m.value, m.headers)];
    }
  }

  /** The batch one attempt sends. */
  function ProducerBatch(messages: seq<Message>, id: Identity, leaderEpoch: Int32, now: Int64): RecordBatch {
    RecordBatch(0, 0, leaderEpoch, MAGIC_V1, 0, 0, Cast32(|messages| - 1), now, now,
                id.producerId, id.epoch, id.baseSequence, ProtocolRecords(messages))
  }

  // ----------------------------------------------------------------------- sizes

  function Len(data: Option<Bytes>): nat {
    if data.None? then 0 else |data.value|
  }

  function HeadersSize(headers: seq<RecordHeader>): nat {
    if headers == [] then 0
    else
      var last := headers[|headers| - 1];
      HeadersSize(headers[..|headers| - 1]) + 6 + Len(last.key) + Len(last.value)
  }

  function RecordSize(r: Record): nat {
    29 + Len(r.key) + Len(r.value) + HeadersSize(r.headers)
  }

  function RecordsSize(records: seq<Record>): nat {
    if records == [] then 0 else RecordsSize(records[..|records| - 1]) + RecordSize(records[|records| - 1])
  }

  lemma NullableSize(data: Option<Bytes>, width: nat)
    ensures |SerializeNullable(data, width)| == width + Len(data)
  {}

  lemma HeaderBytes(h: RecordHeader)
    ensures |Serialize(HEADER, HeaderValue(h))| == 6 + Len(h.key) + Len(h.value)
  {
    var parts := HeaderValue(h).parts;
    StructUnfolds(HEADER_FIELDS, HeaderValue(h));
    NullableSize(h.key, 2);
    NullableSize(h.value, 4);
    assert |SerializeFields(HEADER_FIELDS, parts, 1)| == |SerializeNullable(h.key, 2)|;
    assert |SerializeFields(HEADER_FIELDS, parts, 2)|
        == |SerializeFields(HEADER_FIELDS, parts, 1)| + |SerializeNullable(h.value, 4)|;
  }

  lemma {:induction false} HeadersBytes(headers: seq<RecordHeader>)
    ensures |SerializeAll(HEADER, HeaderValues(headers))| == HeadersSize(headers)
    decreases |headers|
  {
    AllUnfolds(HEADER, HeaderValues(headers));
    hide Serialize, SerializeAll;
    if headers != [] {
      var n := |headers| - 1;
      assert HeaderValues(headers)[..n] == HeaderValues(headers[..n]);
      HeadersBytes(headers[..n]);
      HeaderBytes(headers[n]);
      assert HeaderValues(headers)[n] == HeaderValue(headers[n]);
    }
  }

  /** The fields of a record before its headers take 21 bytes and the key and the value. */
  lemma FrontBytes(r: Record)
    ensures |SerializeFields(RECORD_FIELDS, RecordParts(r), 5)| == 21 + Len(r.key) + Len(r.value)
  {
    var fs, parts := RECORD_FIELDS, RecordParts(r);
    NullableSize(r.key, 4);
    NullableSize(r.value, 4);
    FieldsGrow(fs, parts, 0);
    FieldsGrow(fs, parts, 1);
    FieldsGrow(fs, parts, 2);
    FieldsGrow(fs, parts, 3);
    FieldsGrow(fs, parts, 4);
    hide SerializeFields;
  }

  /** A record and its length prefix take exactly `RecordSize` bytes. */
  lemma RecordBytes(r: Record)
    ensures |Serialize(RECORD, RecordValue(r))| == RecordSize(r)
  {
    var fs, parts := RECORD_FIELDS, RecordParts(r);
    SizedUnfolds(Struct(fs), RecordValue(r));
    StructUnfolds(fs, RecordValue(r));
    HeadersBytes(r.headers);
    ArrayUnfolds(HEADER, parts[5]);
    FieldsGrow(fs, parts, 5);
    FrontBytes(r);
    hide Serialize, SerializeFields, SerializeAll, HeadersSize;
  }

  lemma FieldsGrow(fs: seq<Format>, parts: seq<Value>, k: nat)
    requires k < |fs| == |parts|
    ensures SerializeFields(fs, parts, 0) == []
    ensures |SerializeFields(fs, parts, k + 1)| == |SerializeFields(fs, parts, k)| + |Serialize(fs[k], parts[k])|
  {}

  lemma {:induction false} RecordsBytes(records: seq<Record>)
    ensures |SerializeAll(RECORD, RecordValues(records))| == RecordsSize(records)
    decreases |records|
  {
    AllUnfolds(RECORD, RecordValues(records));
    hide Serialize, SerializeAll, RecordSize;
    if records != [] {
      var n := |records| - 1;
      assert RecordValues(records)[..n] == RecordValues(records[..n]);
      RecordsBytes(records[..n]);
      RecordBytes(records[n]);
      assert RecordValues(records)[n] == RecordValue(records[n]);
    }
  }

  /** The exact size of an encoded batch. */
  lemma BatchSize(b: RecordBatch)
    ensures |BatchBytes(b)| == 57 + RecordsSize(b.records)
  {
    var fs, parts := PAYLOAD_FIELDS, PayloadParts(b);
    StructUnfolds(fs, StructV(parts));
    ArrayUnfolds(RECORD, parts[7]);
    RecordsBytes(b.records);
    FieldsGrow(fs, parts, 0);
    FieldsGrow(fs, parts, 1);
    FieldsGrow(fs, parts, 2);
    FieldsGrow(fs, parts, 3);
    FieldsGrow(fs, parts, 4);
    FieldsGrow(fs, parts, 5);
    FieldsGrow(fs, parts, 6);
    FieldsGrow(fs, parts, 7);
    hide SerializeAll, RecordsSize;
  }

  // --------------------------------------------------------- the worker's byte counter

  function EstimateHeaders(headers: seq<RecordHeader>): nat {
    if headers == [] then 0
    else
      var last := headers[|headers| - 1];
      EstimateHeaders(headers[..|headers| - 1]) + Len(last.key) + Len(last.value) + 8
  }

  /** The estimate that the worker's byte counter adds for a record. */
  function Estimate(m: Message): nat {
    Len(m.key) + Len(m.value) + 32 + EstimateHeaders(m.headers)
  }

  method EstimateRecordBytes(m: Message) returns (size: nat)
    ensures size == Estimate(m)
  {
    size := Len(m.key) + Len(m.value) + 32;
    for i := 0 to |m.headers|
      invariant size == Len(m.key) + Len(m.value) + 32 + EstimateHeaders(m.headers[..i])
    {
      assert m.headers[..i + 1][..i] == m.headers[..i];
      if m.headers[i].key.Some? {
        size := size + |m.headers[i].key.value|;
      }
      size := size + Len(m.headers[i].value) + 8;
    }
    assert m.headers[..|m.headers|] == m.headers;
  }

  function EstimateAll(messages: seq<Message>): nat {
    if messages == [] then 0
    else EstimateAll(messages[..|messages| - 1]) + Estimate(messages[|messages| - 1])
  }

  function HeaderCount(messages: seq<Message>): nat {
    if messages == [] then 0
    else HeaderCount(messages[..|messages| - 1]) + |messages[|messages| - 1].headers|
  }

  lemma {:induction false} HeadersEstimate(headers: seq<RecordHeader>)
    ensures EstimateHeaders(headers) == HeadersSize(headers) + 2 * |headers|
  {
    if headers != [] {
      HeadersEstimate(headers[..|headers| - 1]);
    }
  }

  lemma {:induction false} RecordsEstimate(messages: seq<Message>)
    ensures EstimateAll(messages)
         == RecordsSize(ProtocolRecords(messages)) + 3 * |messages| + 2 * HeaderCount(messages)
  {
    if messages != [] {
      var n := |messages| - 1;
      RecordsEstimate(messages[..n]);
      HeadersEstimate(messages[n].headers);
      assert ProtocolRecords(messages)[..n] == ProtocolRecords(messages[..n]);
      assert ProtocolRecords(messages)[n] == ProtocolRecord(messages[n], n);
    }
  }

  /** The counter predicts the encoded size to the byte: it overstates it by 3 for every record
      and 2 for every record header, and leaves out the 57 fixed bytes. */
  lemma CounterPredictsSize(messages: seq<Message>, id: Identity, leaderEpoch: Int32, now: Int64)
    ensures |BatchBytes(ProducerBatch(messages, id, leaderEpoch, now))| + 3 * |messages| + 2 * HeaderCount(messages)
         == 57 + EstimateAll(messages)
  {
    BatchSize(ProducerBatch(messages, id, leaderEpoch, now));
    RecordsEstimate(messages);
  }

  // -------------------------------------------------------------------- encodability

  /** The encoding of `messages` stays below 2^31 bytes, whatever the identity, the leader epoch
      and the time. */
  predicate Sized31(messages: seq<Message>) {
    57 + RecordsSize(ProtocolRecords(messages)) <= MAX_INT32
  }

  /** The encoder reports no error. */
  predicate Accepted(messages: seq<Message>) {
    forall i :: 0 <= i < |messages| ==> Writable(RECORD, RecordValue(ProtocolRecord(messages[i], i)))
  }

  lemma {:induction false} RecordsSizeBounds(records: seq<Record>)
    ensures RecordsSize(records) >= 29 * |records|
  {
    if records != [] {
      RecordsSizeBounds(records[..|records| - 1]);
    }
  }

  /** Within these limits every attempt's bytes can be decoded again. */
  lemma AttemptEncodable(messages: seq<Message>, id: Identity, leaderEpoch: Int32, now: Int64)
    requires Sized31(messages) && Accepted(messages)
    ensures Encodable(ProducerBatch(messages, id, leaderEpoch, now))
  {
    var b := ProducerBatch(messages, id, leaderEpoch, now);
    BatchSize(b);
    RecordsBytes(b.records);
    RecordsSizeBounds(b.records);
    hide Fits, Writable, Serialize, SerializeAll, BatchBytes, RecordsSize, RecordSize;
    forall i | 0 <= i < |b.records|
      ensures Fits(RECORD, RecordValue(b.records[i]))
    {
      RecordInverse(b.records[i]);
      assert b.records[i] == ProtocolRecord(messages[i], i);
      ItemIsSmaller(RECORD, RecordValues(b.records), i);
      WritableFits(RECORD, RecordValue(b.records[i]));
    }
  }

  /** What a broker reads from an attempt's bytes: this batch, complete, and nothing else. */
  lemma AttemptDecodes(messages: seq<Message>, id: Identity, leaderEpoch: Int32, now: Int64)
    requires Sized31(messages) && Accepted(messages)
    ensures var b := ProducerBatch(messages, id, leaderEpoch, now);
            |BatchBytes(b)| <= MAX_INT32 && ParseSet(SetBytes([b])) == Batches([Completed(b)])
  {
    var b := ProducerBatch(messages, id, leaderEpoch, now);
    AttemptEncodable(messages, id, leaderEpoch, now);
    hide Encodable, BatchBytes, ParseSet, SetBytes, Completed;
    EncodableIsShort(b);
    SetRoundTrip([b]);
    assert CompletedAll([b]) == [Completed(b)];
  }

  lemma EncodableIsShort(b: RecordBatch)
    requires Encodable(b)
    ensures |BatchBytes(b)| <= MAX_INT32
  {}
}
