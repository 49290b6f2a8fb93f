/** Record batches: their layout as formats, the meaning of the encoder and the decoder, and
    the laws that connect the two (protocol/codec/record_batch.go). */
module RecordBatches {
  import opened Wrappers
  import opened Wire
  import opened Crc32c

  const MAGIC_V1: Int8 := 1
  const PREFIX_BYTES := 8
  const CRC_OFFSET := 17

  datatype RecordHeader = RecordHeader(key: Option<Bytes>, value: Option<Bytes>)

  datatype Record = Record(
    attributes: Int8,
    timestampDelta: Int64,
    offsetDelta: Int32,
    key: Option<Bytes>,
    value: Option<Bytes>,
    headers: seq<RecordHeader>)

  datatype RecordBatch = RecordBatch(
    baseOffsetDelta: Int32,
    batchLength: Int32,
    partitionLeaderEpoch: Int32,
    magic: Int8,
    crc32c: Int32,
    attributes: Int16,
    lastOffsetDelta: Int32,
    baseTimestamp: Int64,
    maxTimestamp: Int64,
    producerId: Int64,
    producerEpoch: Int16,
    baseSequence: Int32,
    records: seq<Record>)

  // ------------------------------------------------------------------ layouts

  const HEADER_FIELDS := [NullableString, NullableBytes]
  const HEADER := Struct(HEADER_FIELDS)
  const RECORD_FIELDS := [Int(1), Int(8), Int(4), NullableBytes, NullableBytes, Array(HEADER)]
  const RECORD := Sized(Struct(RECORD_FIELDS))
  const PAYLOAD_FIELDS := [Int(2), Int(4), Int(8), Int(8), Int(8), Int(2), Int(4), Array(RECORD)]
  /** Everything the checksum covers. */
  const PAYLOAD := Struct(PAYLOAD_FIELDS)

  function HeaderValue(h: RecordHeader): Value {
    StructV([BytesV(h.key), BytesV(h.value)])
  }

  function HeaderOf(v: Value): RecordHeader
    requires Shaped(HEADER, v)
  {
    assert Shaped(HEADER_FIELDS[0], v.parts[0]) && Shaped(HEADER_FIELDS[1], v.parts[1]);
    RecordHeader(v.parts[0].data, v.parts[1].data)
  }

  function HeaderValues(headers: seq<RecordHeader>): seq<Value> {
    seq(|headers|, i requires 0 <= i < |headers| => HeaderValue(headers[i]))
  }

  function HeadersOf(items: seq<Value>): seq<RecordHeader>
    requires forall i :: 0 <= i < |items| ==> Shaped(HEADER, items[i])
  {
    seq(|items|, i requires 0 <= i < |items| => HeaderOf(items[i]))
  }

  function RecordParts(r: Record): (parts: seq<Value>)
    ensures |parts| == |RECORD_FIELDS|
  {
    [IntV(r.attributes), IntV(r.timestampDelta), IntV(r.offsetDelta), BytesV(r.key), BytesV(r.value),
     ArrayV(HeaderValues(r.headers))]
  }

  function RecordValue(r: Record): Value {
    StructV(RecordParts(r))
  }

  lemma RecordShape(v: Value)
    requires Shaped(RECORD, v)
    ensures v.StructV? && |v.parts| == 6
    ensures v.parts[0].IntV? && FitsWidth(v.parts[0].n, 1)
    ensures v.parts[1].IntV? && FitsWidth(v.parts[1].n, 8)
    ensures v.parts[2].IntV? && FitsWidth(v.parts[2].n, 4)
    ensures v.parts[3].BytesV? && v.parts[4].BytesV? && v.parts[5].ArrayV?
    ensures forall i :: 0 <= i < |v.parts[5].items| ==> Shaped(HEADER, v.parts[5].items[i])
  {
    assert Shaped(Struct(RECORD_FIELDS), v);
    assert Shaped(RECORD_FIELDS[0], v.parts[0]) && Shaped(RECORD_FIELDS[1], v.parts[1]);
    assert Shaped(RECORD_FIELDS[2], v.parts[2]) && Shaped(RECORD_FIELDS[3], v.parts[3]);
    assert Shaped(RECORD_FIELDS[4], v.parts[4]) && Shaped(RECORD_FIELDS[5], v.parts[5]);
  }

  function RecordOf(v: Value): Record
    requires Shaped(RECORD, v)
  {
    RecordShape(v);
    PowValues();
    Record(v.parts[0].n, v.parts[1].n, v.parts[2].n, v.parts[3].data, v.parts[4].data,
           HeadersOf(v.parts[5].items))
  }

  function RecordValues(records: seq<Record>): seq<Value> {
    seq(|records|, i requires 0 <= i < |records| => RecordValue(records[i]))
  }

  function RecordsOf(items: seq<Value>): seq<Record>
    requires forall i :: 0 <= i < |items| ==> Shaped(RECORD, items[i])
  {
    seq(|items|, i requires 0 <= i < |items| => RecordOf(items[i]))
  }

  function PayloadParts(b: RecordBatch): (parts: seq<Value>)
    ensures |parts| == |PAYLOAD_FIELDS|
  {
    [IntV(b.attributes), IntV(b.lastOffsetDelta), IntV(b.baseTimestamp), IntV(b.maxTimestamp),
     IntV(b.producerId), IntV(b.producerEpoch), IntV(b.baseSequence), ArrayV(RecordValues(b.records))]
  }

  lemma PayloadShape(v: Value)
    requires Shaped(PAYLOAD, v)
    ensures v.StructV? && |v.parts| == 8
    ensures v.parts[0].IntV? && FitsWidth(v.parts[0].n, 2)
    ensures v.parts[1].IntV? && FitsWidth(v.parts[1].n, 4)
    ensures v.parts[2].IntV? && FitsWidth(v.parts[2].n, 8)
    ensures v.parts[3].IntV? && FitsWidth(v.parts[3].n, 8)
    ensures v.parts[4].IntV? && FitsWidth(v.parts[4].n, 8)
    ensures v.parts[5].IntV? && FitsWidth(v.parts[5].n, 2)
    ensures v.parts[6].IntV? && FitsWidth(v.parts[6].n, 4)
    ensures v.parts[7].ArrayV?
    ensures forall i :: 0 <= i < |v.parts[7].items| ==> Shaped(RECORD, v.parts[7].items[i])
  {
    assert Shaped(PAYLOAD_FIELDS[0], v.parts[0]) && Shaped(PAYLOAD_FIELDS[1], v.parts[1]);
    assert Shaped(PAYLOAD_FIELDS[2], v.parts[2]) && Shaped(PAYLOAD_FIELDS[3], v.parts[3]);
    assert Shaped(PAYLOAD_FIELDS[4], v.parts[4]) && Shaped(PAYLOAD_FIELDS[5], v.parts[5]);
    assert Shaped(PAYLOAD_FIELDS[6], v.parts[6]) && Shaped(PAYLOAD_FIELDS[7], v.parts[7]);
  }

  // ------------------------------------------- meaning of the encoder and the decoder

  function PayloadBytes(b: RecordBatch): Bytes {
    Serialize(PAYLOAD, StructV(PayloadParts(b)))
  }

  /** The encoder reports no error: every header key is short, valid UTF-8. */
  predicate WritableBatch(b: RecordBatch) {
    forall i :: 0 <= i < |b.records| ==> Writable(RECORD, RecordValue(b.records[i]))
  }

  function EffectiveMagic(magic: Int8): Int8 {
    if magic == 0 then MAGIC_V1 else magic
  }

  function BatchBytes(b: RecordBatch): (d: Bytes)
    ensures |d| == CRC_OFFSET + |PayloadBytes(b)|
  {
    var payload := PayloadBytes(b);
    SignedBytes(b.baseOffsetDelta, 4)
    + SignedBytes(9 + |payload|, 4)
    + SignedBytes(b.partitionLeaderEpoch, 4)
    + SignedBytes(EffectiveMagic(b.magic), 1)
    + SignedBytes(ChecksumField(payload), 4)
    + payload
  }

  /** The integer field of `width` bytes at `p`. */
  function Field(d: Bytes, p: nat, width: nat): int
    requires 0 < width && p + width <= |d|
  {
    Signed(d[p..p + width])
  }

  function BatchOf(d: Bytes, v: Value): RecordBatch
    requires |d| >= CRC_OFFSET && Shaped(PAYLOAD, v)
  {
    PayloadShape(v);
    PowValues();
    SignedReverse(d[0..4]);
    SignedReverse(d[4..8]);
    SignedReverse(d[8..12]);
    SignedReverse(d[12..13]);
    SignedReverse(d[13..17]);
    RecordBatch(
      Field(d, 0, 4), Field(d, 4, 4), Field(d, 8, 4), Field(d, 12, 1), Field(d, 13, 4),
      v.parts[0].n, v.parts[1].n, v.parts[2].n, v.parts[3].n, v.parts[4].n, v.parts[5].n, v.parts[6].n,
      RecordsOf(v.parts[7].items))
  }

  predicate HeaderAccepted(d: Bytes) {
    && |d| >= CRC_OFFSET
    && Field(d, 4, 4) == Cast32(|d| - PREFIX_BYTES)
    && Field(d, 13, 4) == ChecksumField(d[CRC_OFFSET..])
  }

  /** What `DecodeRecordBatch` returns. */
  function ParseBatch(d: Bytes): Option<RecordBatch> {
    if !HeaderAccepted(d) then None
    else
      var body := Parse(PAYLOAD, d, CRC_OFFSET);
      if body.None? || body.value.1 != |d| then None else Some(BatchOf(d, body.value.0))
  }

  // ------------------------------------------------------------ round trip, forwards

  /** What a caller must respect for the encoding to be decodable: UTF-8 header keys of at most
      2^15 - 1 bytes, and lengths that fit the 32-bit length fields. */
  predicate Encodable(b: RecordBatch) {
    && |b.records| <= MAX_INT32
    && (forall i :: 0 <= i < |b.records| ==> Fits(RECORD, RecordValue(b.records[i])))
    && |BatchBytes(b)| <= MAX_INT32
  }

  /** The batch with the fields the encoder computes filled in. */
  function Completed(b: RecordBatch): RecordBatch
    requires |BatchBytes(b)| <= MAX_INT32
  {
    b.(magic := EffectiveMagic(b.magic),
       batchLength := 9 + |PayloadBytes(b)|,
       crc32c := ChecksumField(PayloadBytes(b)))
  }

  lemma HeaderInverse(h: RecordHeader)
    ensures Shaped(HEADER, HeaderValue(h)) && HeaderOf(HeaderValue(h)) == h
  {
    forall i | 0 <= i < 2
      ensures Shaped(HEADER_FIELDS[i], HeaderValue(h).parts[i])
    {}
  }

  lemma RecordInverse(r: Record)
    ensures Shaped(RECORD, RecordValue(r)) && RecordOf(RecordValue(r)) == r
  {
    PowValues();
    var parts := RecordParts(r);
    forall i | 0 <= i < |r.headers|
      ensures Shaped(HEADER, HeaderValues(r.headers)[i]) && HeaderOf(HeaderValues(r.headers)[i]) == r.headers[i]
    {
      HeaderInverse(r.headers[i]);
    }
    forall i | 0 <= i < 6
      ensures Shaped(RECORD_FIELDS[i], parts[i])
    {}
    assert Shaped(Struct(RECORD_FIELDS), RecordValue(r));
    assert HeadersOf(parts[5].items) == r.headers;
  }

  lemma PayloadInverse(b: RecordBatch)
    ensures Shaped(PAYLOAD, StructV(PayloadParts(b)))
    ensures forall i :: 0 <= i < |b.records| ==> Shaped(RECORD, RecordValues(b.records)[i])
    ensures RecordsOf(RecordValues(b.records)) == b.records
  {
    PowValues();
    var parts := PayloadParts(b);
    forall i | 0 <= i < |b.records|
      ensures Shaped(RECORD, RecordValues(b.records)[i]) && RecordOf(RecordValues(b.records)[i]) == b.records[i]
    {
      RecordInverse(b.records[i]);
    }
    forall i | 0 <= i < 8
      ensures Shaped(PAYLOAD_FIELDS[i], parts[i])
    {}
  }

  /** The bytes of an encoded batch, field by field. */
  lemma BatchFields(b: RecordBatch)
    requires |BatchBytes(b)| <= MAX_INT32
    ensures var d := BatchBytes(b);
            && d[CRC_OFFSET..] == PayloadBytes(b)
            && Field(d, 0, 4) == b.baseOffsetDelta
            && Field(d, 4, 4) == |d| - PREFIX_BYTES
            && Field(d, 8, 4) == b.partitionLeaderEpoch
            && Field(d, 12, 1) == EffectiveMagic(b.magic)
            && Field(d, 13, 4) == ChecksumField(PayloadBytes(b))
  {
    hide PayloadBytes, ChecksumField, Signed, SignedBytes, Pow, FitsWidth;
    var d, payload := BatchBytes(b), PayloadBytes(b);
    assert d[0..4] == SignedBytes(b.baseOffsetDelta, 4);
    assert d[4..8] == SignedBytes(9 + |payload|, 4);
    assert d[8..12] == SignedBytes(b.partitionLeaderEpoch, 4);
    assert d[12..13] == SignedBytes(EffectiveMagic(b.magic), 1);
    assert d[13..17] == SignedBytes(ChecksumField(payload), 4);
    SmallFits(b.baseOffsetDelta, b.partitionLeaderEpoch, EffectiveMagic(b.magic), ChecksumField(payload), 9 + |payload|);
    SignedRoundTrip(b.baseOffsetDelta, 4);
    SignedRoundTrip(9 + |payload|, 4);
    SignedRoundTrip(b.partitionLeaderEpoch, 4);
    SignedRoundTrip(EffectiveMagic(b.magic), 1);
    SignedRoundTrip(ChecksumField(payload), 4);
  }

  lemma SmallFits(a: Int32, b: Int32, c: Int8, d: Int32, n: nat)
    requires n <= MAX_INT32
    ensures FitsWidth(a, 4) && FitsWidth(b, 4) && FitsWidth(c, 1) && FitsWidth(d, 4) && FitsWidth(n, 4)
  {
    PowValues();
  }

  lemma PayloadFits(b: RecordBatch)
    requires Encodable(b)
    ensures Fits(PAYLOAD, StructV(PayloadParts(b)))
  {
    PowValues();
    var parts := PayloadParts(b);
    forall i | 0 <= i < 8
      ensures Fits(PAYLOAD_FIELDS[i], parts[i])
    {
      if i == 7 {
        assert forall j :: 0 <= j < |b.records| ==> Fits(RECORD, RecordValues(b.records)[j]);
      }
    }
  }

  /** Decoding an encoded batch gives the batch back. */
  lemma BatchRoundTrip(b: RecordBatch)
    requires Encodable(b)
    ensures ParseBatch(BatchBytes(b)) == Some(Completed(b))
  {
    hide Parse, Serialize, Fits, Shaped, Checksum, Signed, SignedBytes, Field;
    var d, v := BatchBytes(b), StructV(PayloadParts(b));
    BatchFields(b);
    PayloadFits(b);
    PayloadInverse(b);
    assert At(d, CRC_OFFSET, PayloadBytes(b)) by {
      assert d[CRC_OFFSET..CRC_OFFSET + |PayloadBytes(b)|] == d[CRC_OFFSET..];
    }
    ParseSerialized(PAYLOAD, v, d, CRC_OFFSET);
  }

  // ----------------------------------------------------------- round trip, backwards

  /** Re-encoding an accepted batch takes as many bytes, and gives the identical ones if and
      only if no null length was written other than as -1 and the magic byte is not 0. */
  lemma BatchReverse(d: Bytes)
    requires ParseBatch(d).Some? && |d| <= MAX_INT32
    ensures |BatchBytes(ParseBatch(d).value)| == |d|
    ensures BatchBytes(ParseBatch(d).value) == d <==> Canonical(PAYLOAD, d, CRC_OFFSET) && Field(d, 12, 1) != 0
  {
    hide Parse, Serialize, Canonical, Shaped, Fits, Signed, SignedBytes, Checksum, Unsigned, Pow, RecordsOf;
    var b := ParseBatch(d).value;
    ReencodesPayload(d);
    SerializeParsed(PAYLOAD, d, CRC_OFFSET);
    var e := BatchBytes(b);
    assert |e| == |d|;
    BatchFields(b);
    if e == d {
      assert Field(d, 12, 1) == EffectiveMagic(b.magic) != 0;
      assert d[CRC_OFFSET..] == PayloadBytes(b);
    }
    if Canonical(PAYLOAD, d, CRC_OFFSET) && Field(d, 12, 1) != 0 {
      assert PayloadBytes(b) == d[CRC_OFFSET..];
      SameFields(d, e);
    }
  }

  /** The payload of the decoded batch is the value the parser found. */
  lemma ReencodesPayload(d: Bytes)
    requires ParseBatch(d).Some?
    ensures StructV(PayloadParts(ParseBatch(d).value)) == Parse(PAYLOAD, d, CRC_OFFSET).value.0
  {
    var v := Parse(PAYLOAD, d, CRC_OFFSET).value.0;
    PayloadShape(v);
    RecordsInverse(v.parts[7].items);
    var b := ParseBatch(d).value;
    assert PayloadParts(b)[7] == v.parts[7];
    assert PayloadParts(b) == v.parts;
  }

  lemma RecordsInverse(items: seq<Value>)
    requires forall i :: 0 <= i < |items| ==> Shaped(RECORD, items[i])
    ensures RecordValues(RecordsOf(items)) == items
  {
    forall i | 0 <= i < |items|
      ensures RecordValue(RecordOf(items[i])) == items[i]
    {
      RecordOfInverse(items[i]);
    }
  }

  lemma RecordOfInverse(v: Value)
    requires Shaped(RECORD, v)
    ensures RecordValue(RecordOf(v)) == v
  {
    RecordShape(v);
    var items := v.parts[5].items;
    forall i | 0 <= i < |items|
      ensures HeaderValue(HeaderOf(items[i])) == items[i]
    {
      assert Shaped(HEADER_FIELDS[0], items[i].parts[0]) && Shaped(HEADER_FIELDS[1], items[i].parts[1]);
      assert HeaderValue(HeaderOf(items[i])).parts == items[i].parts;
    }
    assert HeaderValues(HeadersOf(items)) == items;
    assert RecordParts(RecordOf(v)) == v.parts;
  }

  /** Byte strings with equal header fields and equal payloads are equal. */
  lemma SameFields(d: Bytes, e: Bytes)
    requires |d| == |e| >= CRC_OFFSET && d[CRC_OFFSET..] == e[CRC_OFFSET..]
    requires Field(d, 0, 4) == Field(e, 0, 4) && Field(d, 4, 4) == Field(e, 4, 4)
    requires Field(d, 8, 4) == Field(e, 8, 4) && Field(d, 12, 1) == Field(e, 12, 1)
    requires Field(d, 13, 4) == Field(e, 13, 4)
    ensures d == e
  {
    SameField(d, e, 0, 4);
    SameField(d, e, 4, 4);
    SameField(d, e, 8, 4);
    SameField(d, e, 12, 1);
    SameField(d, e, 13, 4);
    assert d == d[0..4] + d[4..8] + d[8..12] + d[12..13] + d[13..17] + d[17..];
    assert e == e[0..4] + e[4..8] + e[8..12] + e[12..13] + e[13..17] + e[17..];
  }

  lemma SameField(d: Bytes, e: Bytes, p: nat, width: nat)
    requires 0 < width && p + width <= |d| == |e| && Field(d, p, width) == Field(e, p, width)
    ensures d[p..p + width] == e[p..p + width]
  {
    SignedReverse(d[p..p + width]);
    SignedReverse(e[p..p + width]);
  }

  // ------------------------------------------------------------------- corruption

  /** No change confined to four consecutive bytes of the payload goes unnoticed. */
  lemma CorruptionDetected(d: Bytes, e: Bytes, i: nat)
    requires ParseBatch(d).Some?
    requires CRC_OFFSET <= i && i + 4 <= |d| == |e| && d != e
    requires d[..i] == e[..i] && d[i + 4..] == e[i + 4..]
    ensures ParseBatch(e).None?
  {
    hide Parse, Signed, ChecksumField;
    var j := i - CRC_OFFSET;
    var dp, ep := d[CRC_OFFSET..], e[CRC_OFFSET..];
    assert d == d[..CRC_OFFSET] + dp && e == e[..CRC_OFFSET] + ep;
    assert d[..CRC_OFFSET] == d[..i][..CRC_OFFSET] == e[..i][..CRC_OFFSET] == e[..CRC_OFFSET];
    assert dp[..j] == d[..i][CRC_OFFSET..] == e[..i][CRC_OFFSET..] == ep[..j];
    assert dp[j + 4..] == d[i + 4..] && ep[j + 4..] == e[i + 4..];
    ChecksumDetects(dp, ep, j);
    assert d[13..17] == d[..CRC_OFFSET][13..17] == e[..CRC_OFFSET][13..17] == e[13..17];
  }
}
