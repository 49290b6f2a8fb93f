/** The record batch codec as it runs: writers filled and readers advanced in loops, proved to
    compute `BatchBytes`, `ParseBatch`, `SetBytes` and `ParseSet`. */
module RecordBatchCodec {
  import opened Wrappers
  import opened Wire
  import opened Binary
  import opened Crc32c
  import opened RecordBatches
  import opened RecordBatchSets

  // ------------------------------------------------------------------ encoding

  method WriteHeader(writer: Writer, header: RecordHeader)
    modifies writer
    ensures writer.Out() == Append(old(writer.Out()), HEADER, HeaderValue(header))
  {
    hide Append, AppendFields;
    ghost var out, parts := writer.Out(), HeaderValue(header).parts;
    NoFields(out, HEADER_FIELDS, parts);
    AppendField(out, HEADER_FIELDS, parts, 0);
    AppendField(out, HEADER_FIELDS, parts, 1);
    AppendStruct(out, HEADER_FIELDS, parts);
    writer.WriteNullableString(header.key);
    writer.WriteBytes(header.value);
  }

  lemma NoFields(out: Option<Bytes>, fs: seq<Format>, parts: seq<Value>)
    requires |fs| == |parts|
    ensures AppendFields(out, fs, parts, 0) == out
  {
    if out.Some? {
      assert out.value + [] == out.value;
    }
  }

  lemma NoItems(out: Option<Bytes>, e: Format)
    ensures AppendAll(out, e, []) == out
  {
    if out.Some? {
      assert out.value + [] == out.value;
    }
  }

  method WriteHeaders(writer: Writer, headers: seq<RecordHeader>)
    modifies writer
    ensures writer.Out() == Append(old(writer.Out()), Array(HEADER), ArrayV(HeaderValues(headers)))
  {
    ghost var out := writer.Out();
    if |headers| > MAX_INT32 {
      writer.WriteArrayLen(|headers|);
      for i := 0 to |headers|
        invariant writer.Out() == None
      {
        WriteHeader(writer, headers[i]);
      }
      return;
    }
    writer.WriteArrayLen(|headers|);
    ghost var counted := writer.Out();
    NoItems(counted, HEADER);
    assert HeaderValues(headers[..0]) == [];
    for i := 0 to |headers|
      invariant writer.Out() == AppendAll(counted, HEADER, HeaderValues(headers[..i]))
    {
      WriteHeader(writer, headers[i]);
      AppendItem(counted, HEADER, HeaderValues(headers[..i]), HeaderValue(headers[i]));
      assert HeaderValues(headers[..i + 1]) == HeaderValues(headers[..i]) + [HeaderValue(headers[i])];
    }
    assert headers[..|headers|] == headers;
    AppendArray(out, HEADER, HeaderValues(headers));
  }

  /** Writes one length-prefixed record; an error inside it is latched in `writer`. */
  method WriteRecord(writer: Writer, record: Record)
    modifies writer
    ensures writer.Out() == Append(old(writer.Out()), RECORD, RecordValue(record))
  {
    SizedUnfolds(Struct(RECORD_FIELDS), RecordValue(record));
    hide Serialize, Writable, RecordValue;
    ghost var out := writer.Out();
    var payload := new Writer();
    WriteRecordBody(payload, record);
    var payloadBytes := payload.Result();
    if payloadBytes.None? {
      writer.SetErr();
      return;
    }
    ghost var none: Bytes := [];
    assert none + Serialize(Struct(RECORD_FIELDS), RecordValue(record))
        == Serialize(Struct(RECORD_FIELDS), RecordValue(record));
    writer.WriteCastLength(|payloadBytes.value|);
    writer.WriteRawBytes(payloadBytes.value);
    if out.Some? {
      assert writer.Out().value == out.value + (SignedBytes(|payloadBytes.value|, 4) + payloadBytes.value);
    }
  }

  method WriteRecordBody(payload: Writer, record: Record)
    requires payload.Out() == Some([])
    modifies payload
    ensures payload.Out() == Append(Some([]), Struct(RECORD_FIELDS), RecordValue(record))
  {
    hide Append, AppendFields;
    ghost var parts := RecordParts(record);
    var none: Option<Bytes> := Some([]);
    NoFields(none, RECORD_FIELDS, parts);
    AppendStruct(none, RECORD_FIELDS, parts);
    payload.WriteInt8(record.attributes);
    AppendField(none, RECORD_FIELDS, parts, 0);
    payload.WriteInt64(record.timestampDelta);
    AppendField(none, RECORD_FIELDS, parts, 1);
    payload.WriteInt32(record.offsetDelta);
    AppendField(none, RECORD_FIELDS, parts, 2);
    payload.WriteBytes(record.key);
    AppendField(none, RECORD_FIELDS, parts, 3);
    payload.WriteBytes(record.value);
    AppendField(none, RECORD_FIELDS, parts, 4);
    WriteHeaders(payload, record.headers);
    AppendField(none, RECORD_FIELDS, parts, 5);
  }

  method WritePayload(writer: Writer, batch: RecordBatch)
    requires writer.Out() == Some([])
    modifies writer
    ensures writer.Out() == if WritableBatch(batch) then Some(PayloadBytes(batch)) else None
  {
    ghost var parts := PayloadParts(batch);
    var none: Option<Bytes> := Some([]);
    WriteBatchHeader(writer, batch);
    assert writer.Out() == Some(SerializeFields(PAYLOAD_FIELDS, parts, 7));
    writer.WriteCastLength(|batch.records|);
    ghost var counted := writer.Out();
    NoItems(counted, RECORD);
    assert RecordValues(batch.records[..0]) == [];
    for i := 0 to |batch.records|
      invariant writer.Out() == AppendAll(counted, RECORD, RecordValues(batch.records[..i]))
    {
      hide Append, AppendAll;
      WriteRecord(writer, batch.records[i]);
      AppendItem(counted, RECORD, RecordValues(batch.records[..i]), RecordValue(batch.records[i]));
      assert RecordValues(batch.records[..i + 1])
          == RecordValues(batch.records[..i]) + [RecordValue(batch.records[i])];
    }
    assert batch.records[..|batch.records|] == batch.records;
    PayloadSplits(batch);
    assert WritableBatch(batch) <==> AppendAll(counted, RECORD, RecordValues(batch.records)).Some? by {
      var values := RecordValues(batch.records);
      assert forall i :: 0 <= i < |values| ==> values[i] == RecordValue(batch.records[i]);
    }
  }

  lemma PayloadSplits(b: RecordBatch)
    ensures PayloadBytes(b)
         == SerializeFields(PAYLOAD_FIELDS, PayloadParts(b), 7) + SignedBytes(|b.records|, 4)
            + SerializeAll(RECORD, RecordValues(b.records))
  {
    hide SerializeAll;
    var parts := PayloadParts(b);
    StructUnfolds(PAYLOAD_FIELDS, StructV(parts));
    ArrayUnfolds(RECORD, parts[7]);
    hide Serialize;
    assert SerializeFields(PAYLOAD_FIELDS, parts, 8)
        == SerializeFields(PAYLOAD_FIELDS, parts, 7) + Serialize(PAYLOAD_FIELDS[7], parts[7]);
  }

  /** The seven fixed fields before the record array. */
  method WriteBatchHeader(writer: Writer, batch: RecordBatch)
    requires writer.Out() == Some([])
    modifies writer
    ensures writer.Out() == Some(SerializeFields(PAYLOAD_FIELDS, PayloadParts(batch), 7))
  {
    hide Append, AppendFields;
    ghost var parts := PayloadParts(batch);
    var none: Option<Bytes> := Some([]);
    NoFields(none, PAYLOAD_FIELDS, parts);
    writer.WriteInt16(batch.attributes);
    AppendField(none, PAYLOAD_FIELDS, parts, 0);
    writer.WriteInt32(batch.lastOffsetDelta);
    AppendField(none, PAYLOAD_FIELDS, parts, 1);
    writer.WriteInt64(batch.baseTimestamp);
    AppendField(none, PAYLOAD_FIELDS, parts, 2);
    writer.WriteInt64(batch.maxTimestamp);
    AppendField(none, PAYLOAD_FIELDS, parts, 3);
    writer.WriteInt64(batch.producerId);
    AppendField(none, PAYLOAD_FIELDS, parts, 4);
    writer.WriteInt16(batch.producerEpoch);
    AppendField(none, PAYLOAD_FIELDS, parts, 5);
    writer.WriteInt32(batch.baseSequence);
    AppendField(none, PAYLOAD_FIELDS, parts, 6);
    FixedFieldsWritable(batch);
  }

  lemma FixedFieldsWritable(b: RecordBatch)
    ensures AppendFields(Some([]), PAYLOAD_FIELDS, PayloadParts(b), 7)
         == Some(SerializeFields(PAYLOAD_FIELDS, PayloadParts(b), 7))
  {
    hide SerializeFields;
    forall i | 0 <= i < 7
      ensures Writable(PAYLOAD_FIELDS[i], PayloadParts(b)[i])
    {}
    var none: Bytes := [];
    assert none + SerializeFields(PAYLOAD_FIELDS, PayloadParts(b), 7)
        == SerializeFields(PAYLOAD_FIELDS, PayloadParts(b), 7);
  }

  method EncodeRecordBatch(batch: RecordBatch) returns (r: Option<Bytes>)
    ensures r == if WritableBatch(batch) then Some(BatchBytes(batch)) else None
  {
    var crcPayload := new Writer();
    WritePayload(crcPayload, batch);
    var payload := crcPayload.Result();
    if payload.None? {
      return None;
    }
    hide PayloadBytes, ChecksumField, SignedBytes;
    var checksum := ChecksumField(payload.value);
    var magic := if batch.magic == 0 then MAGIC_V1 else batch.magic;
    var writer := new Writer();
    writer.WriteInt32(batch.baseOffsetDelta);
    ghost var none: Bytes := [];
    assert none + SignedBytes(batch.baseOffsetDelta, 4) == SignedBytes(batch.baseOffsetDelta, 4);
    assert writer.Out() == Some(SignedBytes(batch.baseOffsetDelta, 4));
    writer.WriteCastLength(4 + 1 + 4 + |payload.value|);
    writer.WriteInt32(batch.partitionLeaderEpoch);
    writer.WriteInt8(magic);
    writer.WriteInt32(checksum);
    writer.WriteRawBytes(payload.value);
    r := writer.Result();
  }

  method EncodeRecordBatchSet(batches: seq<RecordBatch>) returns (r: Option<Bytes>)
    ensures r == if forall i :: 0 <= i < |batches| ==> WritableBatch(batches[i])
                 then Some(SetBytes(batches)) else None
  {
    hide WritableBatch, BatchBytes;
    var writer := new Writer();
    for i := 0 to |batches|
      invariant forall j :: 0 <= j < i ==> WritableBatch(batches[j])
      invariant writer.Out() == Some(SetBytes(batches[..i]))
    {
      var data := EncodeRecordBatch(batches[i]);
      if data.None? {
        return None;
      }
      writer.WriteRawBytes(data.value);
      SetBytesGrow(batches[..i], batches[i]);
      assert batches[..i + 1] == batches[..i] + [batches[i]];
    }
    assert batches[..|batches|] == batches;
    r := writer.Result();
  }

  // ------------------------------------------------------------------ decoding

  // The layouts, and the values their parts make, for methods that keep all definitions hidden.

  lemma HeaderLayout()
    ensures HEADER == Struct(HEADER_FIELDS) && |HEADER_FIELDS| == 2
    ensures HEADER_FIELDS[0] == NullableString && HEADER_FIELDS[1] == NullableBytes
  {}

  lemma RecordLayout()
    ensures RECORD == Sized(Struct(RECORD_FIELDS)) && |RECORD_FIELDS| == 6
    ensures RECORD_FIELDS[0] == Int(1) && RECORD_FIELDS[1] == Int(8) && RECORD_FIELDS[2] == Int(4)
    ensures RECORD_FIELDS[3] == NullableBytes && RECORD_FIELDS[4] == NullableBytes
    ensures RECORD_FIELDS[5] == Array(HEADER)
  {}

  lemma PayloadLayout()
    ensures PAYLOAD == Struct(PAYLOAD_FIELDS) && |PAYLOAD_FIELDS| == 8 && CRC_OFFSET == 17
    ensures PAYLOAD_FIELDS[0] == Int(2) && PAYLOAD_FIELDS[1] == Int(4) && PAYLOAD_FIELDS[2] == Int(8)
    ensures PAYLOAD_FIELDS[3] == Int(8) && PAYLOAD_FIELDS[4] == Int(8) && PAYLOAD_FIELDS[5] == Int(2)
    ensures PAYLOAD_FIELDS[6] == Int(4) && PAYLOAD_FIELDS[7] == Array(RECORD)
  {}

  lemma NoHeaders()
    ensures HeadersOf([]) == []
  {}

  lemma NoRecords()
    ensures RecordsOf([]) == []
  {}

  lemma HeaderBuilt(key: Option<Bytes>, value: Option<Bytes>, parts: seq<Value>)
    requires Shaped(HEADER, StructV(parts)) && parts == [] + [BytesV(key)] + [BytesV(value)]
    ensures HeaderOf(StructV(parts)) == RecordHeader(key, value)
  {}

  lemma NumbersBuilt(n: (Int8, Int64, Int32), parts: seq<Value>)
    requires parts == [] + [IntV(n.0)] + [IntV(n.1)] + [IntV(n.2)]
    ensures parts == RecordNumbers(n)
  {}

  lemma RecordBuilt(n: (Int8, Int64, Int32), key: Option<Bytes>, value: Option<Bytes>, headers: Value, parts: seq<Value>)
    requires Shaped(Struct(RECORD_FIELDS), StructV(parts))
    requires parts == RecordNumbers(n) + [BytesV(key)] + [BytesV(value)] + [headers]
    ensures Shaped(RECORD, StructV(parts)) && headers.ArrayV?
    ensures forall i :: 0 <= i < |headers.items| ==> Shaped(HEADER, headers.items[i])
    ensures RecordOf(StructV(parts)) == Record(n.0, n.1, n.2, key, value, HeadersOf(headers.items))
  {
    assert Shaped(RECORD, StructV(parts));
    RecordShape(StructV(parts));
    hide HeadersOf, Shaped;
  }

  lemma TimesBuilt(a: Int16, b: Int32, c: Int64, d: Int64, parts: seq<Value>)
    requires parts == [] + [IntV(a)] + [IntV(b)] + [IntV(c)] + [IntV(d)]
    ensures parts == TimeParts(a, b, c, d)
  {}

  lemma FixedBuilt(f: FixedFields)
    ensures FixedParts(f)
         == TimeParts(f.attributes, f.lastOffsetDelta, f.baseTimestamp, f.maxTimestamp)
            + [IntV(f.producerId)] + [IntV(f.producerEpoch)] + [IntV(f.baseSequence)]
  {}

  lemma ParseBatchUnfolds(d: Bytes)
    requires HeaderAccepted(d)
    ensures |d| >= CRC_OFFSET
    ensures var body := Parse(PAYLOAD, d, CRC_OFFSET);
            ParseBatch(d) ==
            if body.None? || body.value.1 != |d| then None else Some(BatchOf(d, body.value.0))
  {}

  lemma BatchBuilt(d: Bytes, f: FixedFields, records: Value)
    requires |d| >= CRC_OFFSET && Shaped(PAYLOAD, StructV(FixedParts(f) + [records]))
    ensures records.ArrayV? && forall i :: 0 <= i < |records.items| ==> Shaped(RECORD, records.items[i])
    ensures BatchOf(d, StructV(FixedParts(f) + [records]))
         == RecordBatch(
              Field(d, 0, 4), Field(d, 4, 4), Field(d, 8, 4), Field(d, 12, 1), Field(d, 13, 4),
              f.attributes, f.lastOffsetDelta, f.baseTimestamp, f.maxTimestamp, f.producerId, f.producerEpoch,
              f.baseSequence, RecordsOf(records.items))
  {
    var parts := FixedParts(f) + [records];
    assert parts[7] == records;
    PayloadShape(StructV(parts));
    hide RecordsOf, Shaped, Field;
  }

  method ReadHeader(reader: Reader) returns (r: Option<RecordHeader>)
    requires reader.Valid()
    modifies reader
    ensures reader.Valid()
    ensures match Parse(HEADER, reader.bytes, old(reader.pos))
            case Some((v, q)) => r == Some(HeaderOf(v)) && reader.pos == q
            case None => r.None?
  {
    ghost var b, start := reader.bytes, reader.pos;
    HeaderLayout();
    StartStruct(HEADER_FIELDS, b, start);
    hide *;
    ghost var parts: seq<Value> := [];
    NextField(HEADER_FIELDS, b, start, parts, start);
    var key := reader.ReadNullableString();
    if key.None? {
      return None;
    }
    parts := parts + [BytesV(key.value)];
    NextField(HEADER_FIELDS, b, start, parts, reader.pos);
    var value := reader.ReadBytes();
    if value.None? {
      return None;
    }
    parts := parts + [BytesV(value.value)];
    EndStruct(HEADER_FIELDS, b, start, parts, reader.pos);
    HeaderBuilt(key.value, value.value, parts);
    r := Some(RecordHeader(key.value, value.value));
  }

  lemma HeadersGrow(items: seq<Value>, item: Value)
    requires (forall j :: 0 <= j < |items| ==> Shaped(HEADER, items[j])) && Shaped(HEADER, item)
    ensures forall j :: 0 <= j < |items + [item]| ==> Shaped(HEADER, (items + [item])[j])
    ensures HeadersOf(items + [item]) == HeadersOf(items) + [HeaderOf(item)]
  {
    hide Shaped, HeaderOf;
  }

  method ReadHeaders(reader: Reader) returns (r: Option<seq<RecordHeader>>)
    requires reader.Valid()
    modifies reader
    ensures reader.Valid()
    ensures match Parse(Array(HEADER), reader.bytes, old(reader.pos))
            case Some((v, q)) => r == Some(HeadersOf(v.items)) && reader.pos == q
            case None => r.None?
  {
    hide *;
    ghost var b, start := reader.bytes, reader.pos;
    ArrayParses(HEADER, b, start);
    ManyParsesNone(HEADER, b, start + 4);
    var headerCount := reader.ReadArrayLen();
    if headerCount.None? {
      return None;
    }
    var headers: seq<RecordHeader> := [];
    ghost var items: seq<Value> := [];
    NoHeaders();
    for i := 0 to headerCount.value
      invariant reader.Valid()
      invariant ParseMany(HEADER, b, start + 4, i) == Some((items, reader.pos))
      invariant (forall j :: 0 <= j < |items| ==> Shaped(HEADER, items[j])) && headers == HeadersOf(items)
    {
      ghost var p := reader.pos;
      NextItem(HEADER, b, start, headerCount.value, i, items, p);
      var header := ReadHeader(reader);
      if header.None? {
        return None;
      }
      HeadersGrow(items, Parse(HEADER, b, p).value.0);
      items := items + [Parse(HEADER, b, p).value.0];
      headers := headers + [header.value];
    }
    r := Some(headers);
  }

  /** Reads the three integers at the head of a record. */
  method ReadRecordNumbers(payload: Reader) returns (r: Option<(Int8, Int64, Int32)>)
    requires payload.pos == 0
    modifies payload
    ensures payload.Valid()
    ensures r.None? ==> Parse(Struct(RECORD_FIELDS), payload.bytes, 0).None?
    ensures r.Some? ==> Reached(RECORD_FIELDS, payload.bytes, 0, RecordNumbers(r.value), payload.pos)
  {
    ghost var b := payload.bytes;
    RecordLayout();
    StartStruct(RECORD_FIELDS, b, 0);
    hide *;
    ghost var parts: seq<Value> := [];
    NextField(RECORD_FIELDS, b, 0, parts, payload.pos);
    var attributes := payload.ReadInt8();
    if attributes.None? {
      return None;
    }
    parts := parts + [IntV(attributes.value)];
    NextField(RECORD_FIELDS, b, 0, parts, payload.pos);
    var timestampDelta := payload.ReadInt64();
    if timestampDelta.None? {
      return None;
    }
    parts := parts + [IntV(timestampDelta.value)];
    NextField(RECORD_FIELDS, b, 0, parts, payload.pos);
    var offsetDelta := payload.ReadInt32();
    if offsetDelta.None? {
      return None;
    }
    parts := parts + [IntV(offsetDelta.value)];
    r := Some((attributes.value, timestampDelta.value, offsetDelta.value));
    NumbersBuilt(r.value, parts);
  }

  ghost function RecordNumbers(n: (Int8, Int64, Int32)): (parts: seq<Value>)
    ensures |parts| == 3
  {
    [IntV(n.0), IntV(n.1), IntV(n.2)]
  }

  /** Reads the fields of one record from a reader over exactly its bytes. */
  method ReadRecordBody(payload: Reader) returns (r: Option<Record>)
    requires payload.pos == 0
    modifies payload
    ensures payload.Valid()
    ensures match Parse(Struct(RECORD_FIELDS), payload.bytes, 0)
            case Some((v, q)) => r == Some(RecordOf(v)) && payload.pos == q
            case None => r.None?
  {
    ghost var b := payload.bytes;
    RecordLayout();
    hide *;
    var numbers := ReadRecordNumbers(payload);
    if numbers.None? {
      return None;
    }
    ghost var parts := RecordNumbers(numbers.value);
    NextField(RECORD_FIELDS, b, 0, parts, payload.pos);
    var key := payload.ReadBytes();
    if key.None? {
      return None;
    }
    parts := parts + [BytesV(key.value)];
    NextField(RECORD_FIELDS, b, 0, parts, payload.pos);
    var value := payload.ReadBytes();
    if value.None? {
      return None;
    }
    parts := parts + [BytesV(value.value)];
    ghost var start := payload.pos;
    NextField(RECORD_FIELDS, b, 0, parts, start);
    var headers := ReadHeaders(payload);
    if headers.None? {
      return None;
    }
    EndStruct(RECORD_FIELDS, b, 0, parts + [Parse(Array(HEADER), b, start).value.0], payload.pos);
    RecordBuilt(numbers.value, key.value, value.value, Parse(Array(HEADER), b, start).value.0,
                parts + [Parse(Array(HEADER), b, start).value.0]);
    r := Some(Record(numbers.value.0, numbers.value.1, numbers.value.2, key.value, value.value, headers.value));
  }

  method ReadRecord(reader: Reader) returns (r: Option<Record>)
    requires reader.Valid()
    modifies reader
    ensures reader.Valid()
    ensures match Parse(RECORD, reader.bytes, old(reader.pos))
            case Some((v, q)) => r == Some(RecordOf(v)) && reader.pos == q
            case None => r.None?
  {
    RecordLayout();
    SizedParses(Struct(RECORD_FIELDS), reader.bytes, reader.pos);
    hide Parse, RecordOf;
    var length := reader.ReadInt32();
    if length.None? || length.value < 0 {
      return None;
    }
    var payloadBytes := reader.ReadRawBytes(length.value);
    if payloadBytes.None? {
      return None;
    }
    var payload := new Reader(payloadBytes.value);
    r := ReadRecordBody(payload);
    if r.Some? && payload.Remaining() != 0 {
      return None;
    }
  }

  lemma RecordsGrow(items: seq<Value>, item: Value)
    requires (forall j :: 0 <= j < |items| ==> Shaped(RECORD, items[j])) && Shaped(RECORD, item)
    ensures forall j :: 0 <= j < |items + [item]| ==> Shaped(RECORD, (items + [item])[j])
    ensures RecordsOf(items + [item]) == RecordsOf(items) + [RecordOf(item)]
  {
    hide Shaped, RecordOf;
  }

  /** The record array of a batch: a count, checked not to be negative, and the records. */
  method ReadRecords(reader: Reader) returns (r: Option<seq<Record>>)
    requires reader.Valid()
    modifies reader
    ensures reader.Valid()
    ensures match Parse(Array(RECORD), reader.bytes, old(reader.pos))
            case Some((v, q)) => r == Some(RecordsOf(v.items)) && reader.pos == q
            case None => r.None?
  {
    hide *;
    ghost var b, start := reader.bytes, reader.pos;
    ArrayParses(RECORD, b, start);
    ManyParsesNone(RECORD, b, start + 4);
    var recordCount := reader.ReadInt32();
    if recordCount.None? || recordCount.value < 0 {
      return None;
    }
    var records: seq<Record> := [];
    ghost var items: seq<Value> := [];
    NoRecords();
    for i := 0 to recordCount.value
      invariant reader.Valid()
      invariant ParseMany(RECORD, b, start + 4, i) == Some((items, reader.pos))
      invariant (forall j :: 0 <= j < |items| ==> Shaped(RECORD, items[j])) && records == RecordsOf(items)
    {
      ghost var p := reader.pos;
      NextItem(RECORD, b, start, recordCount.value, i, items, p);
      var record := ReadRecord(reader);
      if record.None? {
        return None;
      }
      RecordsGrow(items, Parse(RECORD, b, p).value.0);
      items := items + [Parse(RECORD, b, p).value.0];
      records := records + [record.value];
    }
    r := Some(records);
  }

  method DecodeRecordBatch(data: Bytes) returns (r: Option<RecordBatch>)
    ensures r == ParseBatch(data)
  {
    if |data| < CRC_OFFSET {
      return None;
    }
    var reader := new Reader(data);
    var baseOffsetDelta := reader.ReadInt32();
    var batchLength := reader.ReadInt32();
    if batchLength != Some(Cast32(|data| - PREFIX_BYTES)) {
      return None;
    }
    var partitionLeaderEpoch := reader.ReadInt32();
    var magic := reader.ReadInt8();
    var expectedCRC32C := reader.ReadInt32();
    if expectedCRC32C != Some(ChecksumField(data[CRC_OFFSET..])) {
      return None;
    }
    assert HeaderAccepted(data);
    hide ChecksumField, ParseBatch, HeaderAccepted;
    r := DecodePayload(reader, baseOffsetDelta.value, batchLength.value, partitionLeaderEpoch.value,
                       magic.value, expectedCRC32C.value);
  }

  method DecodePayload(reader: Reader, baseOffsetDelta: Int32, batchLength: Int32, partitionLeaderEpoch: Int32,
                       magic: Int8, crc32c: Int32)
    returns (r: Option<RecordBatch>)
    requires HeaderAccepted(reader.bytes) && reader.pos == CRC_OFFSET
    requires baseOffsetDelta == Field(reader.bytes, 0, 4) && batchLength == Field(reader.bytes, 4, 4)
    requires partitionLeaderEpoch == Field(reader.bytes, 8, 4) && magic == Field(reader.bytes, 12, 1)
    requires crc32c == Field(reader.bytes, 13, 4)
    modifies reader
    ensures r == ParseBatch(reader.bytes)
  {
    ghost var b := reader.bytes;
    PayloadLayout();
    ParseBatchUnfolds(b);
    hide *;
    var fixed := ReadFixedFields(reader);
    if fixed.None? {
      return None;
    }
    ghost var parts, start := FixedParts(fixed.value), reader.pos;
    NextField(PAYLOAD_FIELDS, b, CRC_OFFSET, parts, start);
    var records := ReadRecords(reader);
    if records.None? {
      return None;
    }
    EndStruct(PAYLOAD_FIELDS, b, CRC_OFFSET, parts + [Parse(Array(RECORD), b, start).value.0], reader.pos);
    if reader.Remaining() != 0 {
      return None;
    }
    var f := fixed.value;
    BatchBuilt(b, f, Parse(Array(RECORD), b, start).value.0);
    r := Some(RecordBatch(
      baseOffsetDelta, batchLength, partitionLeaderEpoch, magic, crc32c, f.attributes, f.lastOffsetDelta,
      f.baseTimestamp, f.maxTimestamp, f.producerId, f.producerEpoch, f.baseSequence, records.value));
  }

  datatype FixedFields = FixedFields(
    attributes: Int16,
    lastOffsetDelta: Int32,
    baseTimestamp: Int64,
    maxTimestamp: Int64,
    producerId: Int64,
    producerEpoch: Int16,
    baseSequence: Int32)

  ghost function FixedParts(f: FixedFields): (parts: seq<Value>)
    ensures |parts| == 7
  {
    TimeParts(f.attributes, f.lastOffsetDelta, f.baseTimestamp, f.maxTimestamp)
    + [IntV(f.producerId)] + [IntV(f.producerEpoch)] + [IntV(f.baseSequence)]
  }

  ghost function TimeParts(attributes: Int16, lastOffsetDelta: Int32, baseTimestamp: Int64, maxTimestamp: Int64)
    : (parts: seq<Value>)
    ensures |parts| == 4
  {
    [IntV(attributes), IntV(lastOffsetDelta), IntV(baseTimestamp), IntV(maxTimestamp)]
  }

  method ReadTimeFields(reader: Reader) returns (r: Option<(Int16, Int32, Int64, Int64)>)
    requires reader.pos == CRC_OFFSET && reader.Valid()
    modifies reader
    ensures reader.Valid()
    ensures r.None? ==> Parse(PAYLOAD, reader.bytes, CRC_OFFSET).None?
    ensures r.Some? ==>
              Reached(PAYLOAD_FIELDS, reader.bytes, CRC_OFFSET,
                      TimeParts(r.value.0, r.value.1, r.value.2, r.value.3), reader.pos)
  {
    ghost var b := reader.bytes;
    PayloadLayout();
    StartStruct(PAYLOAD_FIELDS, b, CRC_OFFSET);
    hide *;
    ghost var parts: seq<Value> := [];
    NextField(PAYLOAD_FIELDS, b, CRC_OFFSET, parts, reader.pos);
    var attributes := reader.ReadInt16();
    if attributes.None? {
      return None;
    }
    parts := parts + [IntV(attributes.value)];
    NextField(PAYLOAD_FIELDS, b, CRC_OFFSET, parts, reader.pos);
    var lastOffsetDelta := reader.ReadInt32();
    if lastOffsetDelta.None? {
      return None;
    }
    parts := parts + [IntV(lastOffsetDelta.value)];
    NextField(PAYLOAD_FIELDS, b, CRC_OFFSET, parts, reader.pos);
    var baseTimestamp := reader.ReadInt64();
    if baseTimestamp.None? {
      return None;
    }
    parts := parts + [IntV(baseTimestamp.value)];
    NextField(PAYLOAD_FIELDS, b, CRC_OFFSET, parts, reader.pos);
    var maxTimestamp := reader.ReadInt64();
    if maxTimestamp.None? {
      return None;
    }
    parts := parts + [IntV(maxTimestamp.value)];
    r := Some((attributes.value, lastOffsetDelta.value, baseTimestamp.value, maxTimestamp.value));
    TimesBuilt(r.value.0, r.value.1, r.value.2, r.value.3, parts);
  }

  /** The seven fields of the payload before the record array. */
  method ReadFixedFields(reader: Reader) returns (r: Option<FixedFields>)
    requires reader.pos == CRC_OFFSET && reader.Valid()
    modifies reader
    ensures reader.Valid()
    ensures r.None? ==> Parse(PAYLOAD, reader.bytes, CRC_OFFSET).None?
    ensures r.Some? ==> Reached(PAYLOAD_FIELDS, reader.bytes, CRC_OFFSET, FixedParts(r.value), reader.pos)
  {
    ghost var b := reader.bytes;
    PayloadLayout();
    hide *;
    var times := ReadTimeFields(reader);
    if times.None? {
      return None;
    }
    ghost var parts := TimeParts(times.value.0, times.value.1, times.value.2, times.value.3);
    NextField(PAYLOAD_FIELDS, b, CRC_OFFSET, parts, reader.pos);
    var producerId := reader.ReadInt64();
    if producerId.None? {
      return None;
    }
    parts := parts + [IntV(producerId.value)];
    NextField(PAYLOAD_FIELDS, b, CRC_OFFSET, parts, reader.pos);
    var producerEpoch := reader.ReadInt16();
    if producerEpoch.None? {
      return None;
    }
    parts := parts + [IntV(producerEpoch.value)];
    NextField(PAYLOAD_FIELDS, b, CRC_OFFSET, parts, reader.pos);
    var baseSequence := reader.ReadInt32();
    if baseSequence.None? {
      return None;
    }
    parts := parts + [IntV(baseSequence.value)];
    r := Some(FixedFields(times.value.0, times.value.1, times.value.2, times.value.3,
                          producerId.value, producerEpoch.value, baseSequence.value));
    FixedBuilt(r.value);
  }

  /** Go's `int32(binary.BigEndian.Uint32(...))`. */
  method ReadLength(field: Bytes) returns (n: Int32)
    requires |field| == 4
    ensures n == Signed(field)
  {
    PowValues();
    SignedReverse(field);
    n := Signed(field);
  }

  lemma SetUnfolds(d: Bytes)
    requires d != []
    ensures |d| < PREFIX_BYTES ==> ParseSet(d) == Rejected
    ensures |d| >= PREFIX_BYTES ==>
              && LengthField(d) == Signed(d[4..8])
              && TotalLength(d) == Cast32(PREFIX_BYTES + Signed(d[4..8]))
              && ParseSet(d) ==
                 if LengthField(d) < 0 || |d| < TotalLength(d) then Rejected
                 else if TotalLength(d) < 0 then Panics
                 else if ParseBatch(d[..TotalLength(d)]).None? then Rejected
                 else Prepend([ParseBatch(d[..TotalLength(d)]).value], ParseSet(d[TotalLength(d)..]))
    ensures |d| >= PREFIX_BYTES && 0 <= TotalLength(d) <= |d| && ParseBatch(d[..TotalLength(d)]).Some? ==>
              TotalLength(d) >= CRC_OFFSET
  {
    hide Cast32, Signed, ParseBatch;
    if |d| >= PREFIX_BYTES && 0 <= TotalLength(d) <= |d| && ParseBatch(d[..TotalLength(d)]).Some? {
      AcceptedHeader(d[..TotalLength(d)]);
    }
  }

  lemma PrependNothing(o: SetOutcome)
    ensures Prepend([], o) == o
  {
    if o.Batches? {
      assert [] + o.list == o.list;
    }
  }

  lemma PrependAll(front: seq<RecordBatch>)
    ensures Prepend(front, Batches([])) == Batches(front)
  {
    assert front + [] == front;
  }

  lemma PrependFailure(front: seq<RecordBatch>)
    ensures Prepend(front, Rejected) == Rejected && Prepend(front, Panics) == Panics
  {}

  lemma PrependTwice(front: seq<RecordBatch>, b: RecordBatch, rest: SetOutcome)
    ensures Prepend(front, Prepend([b], rest)) == Prepend(front + [b], rest)
  {
    if rest.Batches? {
      assert front + ([b] + rest.list) == front + [b] + rest.list;
    }
  }

  method DecodeRecordBatchSet(data: Bytes) returns (r: SetOutcome)
    ensures r == ParseSet(data)
  {
    hide ParseSet, ParseBatch, Cast32, LengthField, TotalLength, Prepend, Signed;
    var batches: seq<RecordBatch> := [];
    var offset := 0;
    assert data[0..] == data;
    PrependNothing(ParseSet(data));
    while offset < |data|
      invariant 0 <= offset <= |data|
      invariant ParseSet(data) == Prepend(batches, ParseSet(data[offset..]))
    {
      ghost var rest := data[offset..];
      SetUnfolds(rest);
      PrependFailure(batches);
      if |data| - offset < PREFIX_BYTES {
        return Rejected;
      }
      assert data[offset + 4..offset + 8] == rest[4..8];
      var batchLength := ReadLength(data[offset + 4..offset + 8]);
      var totalLength := Cast32(PREFIX_BYTES + batchLength);
      if batchLength < 0 || |data| - offset < totalLength {
        return Rejected;
      }
      if totalLength < 0 {
        return Panics;  // data[offset : offset+totalLength] has its bounds in the wrong order
      }
      assert data[offset..offset + totalLength] == rest[..totalLength];
      assert data[offset + totalLength..] == rest[totalLength..];
      var batch := DecodeRecordBatch(data[offset..offset + totalLength]);
      if batch.None? {
        return Rejected;
      }
      PrependTwice(batches, batch.value, ParseSet(rest[totalLength..]));
      batches := batches + [batch.value];
      offset := offset + totalLength;
    }
    assert data[offset..] == [];
    EmptySet();
    PrependAll(batches);
    r := Batches(batches);
  }
}
