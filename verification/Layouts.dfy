/** What stands where on the wire, byte by byte, and what the bytes of a produced batch are. */
module Layouts {
  import opened Wrappers
  import opened Wire
  import opened Binary
  import opened Crc32c
  import opened Crc32cAnswers
  import opened RecordBatches
  import opened ProducerBatches
  import opened Responses

  // ------------------------------------------------------------------------ integers

  /** Integers stand with their highest byte first, negative ones in two's complement. */
  lemma ShortBytes(n: Int16)
    ensures var u := if n < 0 then n + 0x1_0000 else n;
            SignedBytes(n, 2) == [u / 0x100, u % 0x100]
  {
    PowValues();
    hide Pow;
    var u := if n < 0 then n + 0x1_0000 else n;
    BigEndianSteps(u);
  }

  lemma IntBytes(n: Int32)
    ensures var u := if n < 0 then n + 0x1_0000_0000 else n;
            SignedBytes(n, 4) == [u / 0x100_0000, u / 0x1_0000 % 0x100, u / 0x100 % 0x100, u % 0x100]
  {
    PowValues();
    hide Pow;
    var u := if n < 0 then n + 0x1_0000_0000 else n;
    BigEndianSteps(u);
  }

  lemma BigEndianSteps(u: nat)
    ensures u < 0x1_0000 ==> BigEndian(u, 2) == [u / 0x100, u % 0x100]
    ensures u < 0x1_0000_0000 ==>
              BigEndian(u, 4) == [u / 0x100_0000, u / 0x1_0000 % 0x100, u / 0x100 % 0x100, u % 0x100]
  {
    assert BigEndian(u, 1) == [u % 0x100];
    assert BigEndian(u / 0x100, 1) == [u / 0x100 % 0x100];
    assert BigEndian(u, 2) == [u / 0x100 % 0x100, u % 0x100];
    Quotients(u);
    assert BigEndian(u / 0x1_0000, 2) == BigEndian(u / 0x100_0000, 1) + [u / 0x1_0000 % 0x100];
    assert BigEndian(u / 0x100, 3) == BigEndian(u / 0x1_0000, 2) + [u / 0x100 % 0x100];
    assert BigEndian(u, 4) == BigEndian(u / 0x100, 3) + [u % 0x100];
  }

  lemma Quotients(u: nat)
    ensures u / 0x100 / 0x100 == u / 0x1_0000 && u / 0x1_0000 / 0x100 == u / 0x100_0000
  {}

  /** Byte `i` of any width. */
  lemma {:induction false} ByteAt(n: nat, width: nat, i: nat)
    requires i < width
    ensures BigEndian(n, width)[i] == n / Pow(width - 1 - i) % 0x100
  {
    if i < width - 1 {
      ByteAt(n / 0x100, width - 1, i);
      Divided(n, Pow(width - 2 - i));
    }
  }

  lemma Divided(u: nat, m: nat)
    requires m > 0
    ensures u / 0x100 / m == u / (0x100 * m)
  {
    var q, r := u / 0x100, u % 0x100;
    var a, b := q / m, q % m;
    Times(0x100, m, a);
    Quotient(u, 0x100 * m, a, 0x100 * b + r);
  }

  lemma Times(x: nat, m: nat, a: nat)
    ensures x * (m * a) == (x * m) * a
  {}

  lemma Quotient(u: nat, m: nat, a: nat, r: nat)
    requires m > 0 && r < m && u == m * a + r
    ensures u / m == a
  {
    var q := u / m;
    assert u == m * q + u % m;
    Spread(m, q, a);
    if q != a {
      NotNear(m, q - a);
    }
  }

  lemma Spread(m: int, q: int, a: int)
    ensures m * (q - a) == m * q - m * a
  {}

  lemma NotNear(m: int, d: int)
    requires m > 0 && d != 0
    ensures m * d >= m || m * d <= -m
  {
    Spread(m, d, 1);
    if d > 0 {
      NotNegative(m, d - 1);
    } else {
      NotNegative(m, -1 - d);
      Spread(m, -1, d);
    }
  }

  lemma NotNegative(a: int, b: int)
    requires a >= 0 && b >= 0
    ensures a * b >= 0
  {}

  // ----------------------------------------------------------------------- structures

  /** A count and the items one after the other. */
  function Counted(e: Format, items: seq<Value>): Bytes {
    SignedBytes(|items|, 4) + SerializeAll(e, items)
  }

  function Nodes(nodes: seq<Int32>): Bytes { SignedBytes(|nodes|, 4) + NodeBytes(nodes) }

  function NodeBytes(nodes: seq<Int32>): Bytes {
    if nodes == [] then [] else NodeBytes(nodes[..|nodes| - 1]) + SignedBytes(nodes[|nodes| - 1], 4)
  }

  function Flag(b: bool): Bytes { if b then [1] else [0] }

  lemma FlagBytes(b: bool)
    ensures Serialize(Boolean, BoolV(b)) == Flag(b)
  {
    assert BigEndian(1, 1) == [1] && BigEndian(0, 1) == [0];
  }

  lemma {:induction false} NodesBytes(nodes: seq<Int32>)
    ensures Serialize(Array(Int(4)), Int32sV(nodes)) == Nodes(nodes)
  {
    NodesInOrder(nodes);
  }

  lemma {:induction false} NodesInOrder(nodes: seq<Int32>)
    ensures SerializeAll(Int(4), Int32sV(nodes).items) == NodeBytes(nodes)
  {
    if nodes != [] {
      var n := |nodes| - 1;
      NodesInOrder(nodes[..n]);
      assert Int32sV(nodes).items[..n] == Int32sV(nodes[..n]).items;
    }
  }

  /** A null is a length of -1 alone. */
  lemma NullBytes()
    ensures SerializeNullable(None, 2) == [0xFF, 0xFF] && SerializeNullable(None, 4) == [0xFF, 0xFF, 0xFF, 0xFF]
  {
    ShortBytes(-1);
    IntBytes(-1);
  }

  lemma Field(fs: seq<Format>, parts: seq<Value>, k: nat)
    requires k < |fs| == |parts|
    ensures SerializeFields(fs, parts, 0) == []
    ensures SerializeFields(fs, parts, k + 1) == SerializeFields(fs, parts, k) + Serialize(fs[k], parts[k])
  {}

  /** A broker: id, host, port, rack. */
  lemma BrokerLayout(x: Broker)
    ensures Serialize(BROKER, BrokerV(x)) ==
            SignedBytes(x.brokerId, 4) + SerializeNullable(x.host, 2) + SignedBytes(x.port, 4)
            + SerializeNullable(x.rack, 2)
  {
    var fs, parts := BROKER_FIELDS, BrokerParts(x);
    hide SerializeAll, SignedBytes, SerializeNullable, SerializeFields;
    Field(fs, parts, 0);
    Field(fs, parts, 1);
    Field(fs, parts, 2);
    Field(fs, parts, 3);
    assert [] + SignedBytes(x.brokerId, 4) == SignedBytes(x.brokerId, 4);
  }

  /** A partition of a Metadata response: error code, number, leader, leader epoch, and the three lists of nodes. */
  lemma PartitionLayout(x: Partition)
    ensures Serialize(PARTITION, PartitionV(x)) ==
            SignedBytes(x.errorCode, 2) + SignedBytes(x.partition, 4) + SignedBytes(x.leaderId, 4)
            + SignedBytes(x.leaderEpoch, 4) + Nodes(x.replicaNodes) + Nodes(x.isrNodes)
            + Nodes(x.offlineReplicaNodes)
  {
    NodesBytes(x.replicaNodes);
    NodesBytes(x.isrNodes);
    NodesBytes(x.offlineReplicaNodes);
    var fs, parts := PARTITION_FIELDS, PartitionParts(x);
    hide SerializeAll, SignedBytes, SerializeNullable, SerializeFields;
    Field(fs, parts, 0);
    Field(fs, parts, 1);
    Field(fs, parts, 2);
    Field(fs, parts, 3);
    Field(fs, parts, 4);
    Field(fs, parts, 5);
    Field(fs, parts, 6);
    assert [] + SignedBytes(x.errorCode, 2) == SignedBytes(x.errorCode, 2);
  }

  /** A topic of a Metadata response: error code, name, whether it is internal, partitions, authorized operations. */
  lemma TopicLayout(x: Topic)
    ensures Serialize(TOPIC, TopicV(x)) ==
            SignedBytes(x.errorCode, 2) + SerializeNullable(x.name, 2) + Flag(x.internalTopic)
            + Counted(PARTITION, PartitionsV(x.partitions)) + SignedBytes(x.authorizedOperations, 4)
  {
    FlagBytes(x.internalTopic);
    var fs, parts := TOPIC_FIELDS, TopicParts(x);
    hide SerializeAll, SignedBytes, SerializeNullable, SerializeFields;
    Field(fs, parts, 0);
    Field(fs, parts, 1);
    Field(fs, parts, 2);
    Field(fs, parts, 3);
    Field(fs, parts, 4);
    assert [] + SignedBytes(x.errorCode, 2) == SignedBytes(x.errorCode, 2);
  }

  /** A Metadata response: cluster, controller, brokers, topics, authorized operations. */
  lemma MetadataLayout(x: Metadata)
    ensures Serialize(METADATA, MetadataV(x)) ==
            SerializeNullable(x.clusterId, 2) + SignedBytes(x.controllerId, 4)
            + Counted(BROKER, BrokersV(x.brokers)) + Counted(TOPIC, TopicsV(x.topics))
            + SignedBytes(x.authorizedOperations, 4)
  {
    var fs, parts := METADATA_FIELDS, MetadataParts(x);
    hide SerializeAll, SignedBytes, SerializeNullable, SerializeFields;
    Field(fs, parts, 0);
    Field(fs, parts, 1);
    Field(fs, parts, 2);
    Field(fs, parts, 3);
    Field(fs, parts, 4);
    assert [] + SerializeNullable(x.clusterId, 2) == SerializeNullable(x.clusterId, 2);
  }

  /** An aborted transaction: producer and first offset. */
  lemma AbortedLayout(x: Aborted)
    ensures Serialize(ABORTED, AbortedV(x)) ==
            SignedBytes(x.producerId, 8) + SignedBytes(x.firstOffset, 8)
  {
    var fs, parts := ABORTED_FIELDS, AbortedParts(x);
    hide SerializeAll, SignedBytes, SerializeNullable, SerializeFields;
    Field(fs, parts, 0);
    Field(fs, parts, 1);
    assert [] + SignedBytes(x.producerId, 8) == SignedBytes(x.producerId, 8);
  }

  /** A partition of a Fetch response: number, error code, high watermark, log start, last stable offset, aborted transactions, records. */
  lemma FetchPartitionLayout(x: FetchPartition)
    ensures Serialize(FETCH_PARTITION, FetchPartitionV(x)) ==
            SignedBytes(x.partition, 4) + SignedBytes(x.errorCode, 2) + SignedBytes(x.highWatermark, 8)
            + SignedBytes(x.logStartOffset, 8) + SignedBytes(x.lastStableOffset, 8)
            + Counted(ABORTED, AbortedTransactionsV(x.aborted)) + SerializeNullable(x.records, 4)
  {
    var fs, parts := FETCH_PARTITION_FIELDS, FetchPartitionParts(x);
    hide SerializeAll, SignedBytes, SerializeNullable, SerializeFields;
    Field(fs, parts, 0);
    Field(fs, parts, 1);
    Field(fs, parts, 2);
    Field(fs, parts, 3);
    Field(fs, parts, 4);
    Field(fs, parts, 5);
    Field(fs, parts, 6);
    assert [] + SignedBytes(x.partition, 4) == SignedBytes(x.partition, 4);
  }

  /** A topic of a Fetch response: name and partitions. */
  lemma FetchTopicLayout(x: FetchTopic)
    ensures Serialize(FETCH_TOPIC, FetchTopicV(x)) ==
            SerializeNullable(x.name, 2) + Counted(FETCH_PARTITION, FetchPartitionsV(x.partitions))
  {
    var fs, parts := FETCH_TOPIC_FIELDS, FetchTopicParts(x);
    hide SerializeAll, SignedBytes, SerializeNullable, SerializeFields;
    Field(fs, parts, 0);
    Field(fs, parts, 1);
    assert [] + SerializeNullable(x.name, 2) == SerializeNullable(x.name, 2);
  }

  /** A Fetch response: session and topics. */
  lemma FetchLayout(x: Fetch)
    ensures Serialize(FETCH, FetchV(x)) ==
            SignedBytes(x.sessionId, 4) + Counted(FETCH_TOPIC, FetchTopicsV(x.topics))
  {
    var fs, parts := FETCH_FIELDS, FetchParts(x);
    hide SerializeAll, SignedBytes, SerializeNullable, SerializeFields;
    Field(fs, parts, 0);
    Field(fs, parts, 1);
    assert [] + SignedBytes(x.sessionId, 4) == SignedBytes(x.sessionId, 4);
  }

  // -------------------------------------------------------------------- record batches

  /** A record header: its key as a string, its value as bytes. */
  lemma HeaderLayout(h: RecordHeader)
    ensures Serialize(HEADER, HeaderValue(h)) ==
            SerializeNullable(h.key, 2) + SerializeNullable(h.value, 4)
  {
    var fs, parts := HEADER_FIELDS, [BytesV(h.key), BytesV(h.value)];
    hide SerializeAll, SignedBytes, SerializeNullable, SerializeFields;
    Field(fs, parts, 0);
    Field(fs, parts, 1);
    assert [] + SerializeNullable(h.key, 2) == SerializeNullable(h.key, 2);
  }

  function HeaderBytes(headers: seq<RecordHeader>): Bytes {
    if headers == [] then []
    else
      var last := headers[|headers| - 1];
      HeaderBytes(headers[..|headers| - 1]) + SerializeNullable(last.key, 2) + SerializeNullable(last.value, 4)
  }

  lemma {:induction false} HeadersLayout(headers: seq<RecordHeader>)
    ensures SerializeAll(HEADER, HeaderValues(headers)) == HeaderBytes(headers)
    decreases |headers|
  {
    if headers != [] {
      var n := |headers| - 1;
      HeadersLayout(headers[..n]);
      HeaderLayout(headers[n]);
      assert HeaderValues(headers)[..n] == HeaderValues(headers[..n]);
      AllStep(HEADER, HeaderValues(headers));
      hide Serialize, SerializeAll, SerializeNullable;
      LastTwo(HeaderBytes(headers[..n]), SerializeNullable(headers[n].key, 2), SerializeNullable(headers[n].value, 4));
    }
  }

  lemma AllStep(e: Format, items: seq<Value>)
    requires items != []
    ensures SerializeAll(e, items) == SerializeAll(e, items[..|items| - 1]) + Serialize(e, items[|items| - 1])
  {}

  /** A record, behind its size: attributes, timestamp delta, offset delta, key, value, headers. */
  function RecordBody(r: Record): Bytes {
    SignedBytes(r.attributes, 1) + SignedBytes(r.timestampDelta, 8) + SignedBytes(r.offsetDelta, 4)
    + SerializeNullable(r.key, 4) + SerializeNullable(r.value, 4)
    + SignedBytes(|r.headers|, 4) + HeaderBytes(r.headers)
  }

  function AllRecordBytes(records: seq<Record>): Bytes {
    if records == [] then []
    else
      var last := records[|records| - 1];
      AllRecordBytes(records[..|records| - 1]) + SignedBytes(|RecordBody(last)|, 4) + RecordBody(last)
  }

  /** A record as it is produced: attributes 0, timestamp delta 0, its index, and what the caller gave. */
  function MessageBody(m: Message, index: nat): Bytes {
    [0] + [0, 0, 0, 0, 0, 0, 0, 0] + SignedBytes(Cast32(index), 4)
    + SerializeNullable(m.key, 4) + SerializeNullable(m.value, 4)
    + SignedBytes(|m.headers|, 4) + HeaderBytes(m.headers)
  }

  function AllMessageBytes(messages: seq<Message>): Bytes {
    if messages == [] then []
    else
      var n := |messages| - 1;
      AllMessageBytes(messages[..n]) + SignedBytes(|MessageBody(messages[n], n)|, 4) + MessageBody(messages[n], n)
  }

  lemma ZeroFields()
    ensures SignedBytes(0, 1) == [0] && SignedBytes(0, 2) == [0, 0] && SignedBytes(0, 4) == [0, 0, 0, 0]
    ensures SignedBytes(0, 8) == [0, 0, 0, 0, 0, 0, 0, 0]
    ensures SignedBytes(1, 1) == [1]
  {
    ShortBytes(0);
    IntBytes(0);
    assert BigEndian(0, 8) == BigEndian(0, 4) + [0, 0, 0, 0];
    assert BigEndian(0, 1) == [0] && BigEndian(1, 1) == [1];
  }

  lemma RecordLayout(r: Record)
    ensures Serialize(Struct(RECORD_FIELDS), RecordValue(r)) == RecordBody(r)
  {
    var fs, parts := RECORD_FIELDS, RecordParts(r);
    HeadersLayout(r.headers);
    hide SerializeAll, SignedBytes, SerializeNullable, SerializeFields, HeaderBytes;
    Field(fs, parts, 0);
    Field(fs, parts, 1);
    Field(fs, parts, 2);
    Field(fs, parts, 3);
    Field(fs, parts, 4);
    Field(fs, parts, 5);
    assert [] + SignedBytes(r.attributes, 1) == SignedBytes(r.attributes, 1);
    LastTwo(SerializeFields(fs, parts, 5), SignedBytes(|r.headers|, 4), HeaderBytes(r.headers));
  }

  lemma LastTwo(a: Bytes, b: Bytes, c: Bytes)
    ensures a + (b + c) == a + b + c
  {}

  lemma {:induction false} RecordsLayout(records: seq<Record>)
    ensures SerializeAll(RECORD, RecordValues(records)) == AllRecordBytes(records)
    decreases |records|
  {
    if records != [] {
      var n := |records| - 1;
      RecordsLayout(records[..n]);
      RecordLayout(records[n]);
      assert RecordValues(records)[..n] == RecordValues(records[..n]);
      AllStep(RECORD, RecordValues(records));
      SizedStep(Struct(RECORD_FIELDS), RecordValue(records[n]));
      hide RecordBody, Serialize, SerializeAll;
      LastTwo(AllRecordBytes(records[..n]), SignedBytes(|RecordBody(records[n])|, 4), RecordBody(records[n]));
    }
  }

  lemma {:induction false} MessagesLayout(messages: seq<Message>)
    ensures AllRecordBytes(ProtocolRecords(messages)) == AllMessageBytes(messages)
  {
    if messages != [] {
      var n := |messages| - 1;
      MessagesLayout(messages[..n]);
      ZeroFields();
      assert ProtocolRecords(messages)[..n] == ProtocolRecords(messages[..n]);
      assert RecordBody(ProtocolRecords(messages)[n]) == MessageBody(messages[n], n);
      hide RecordBody, MessageBody;
    }
  }

  lemma SizedStep(e: Format, v: Value)
    ensures Serialize(Sized(e), v) == SignedBytes(|Serialize(e, v)|, 4) + Serialize(e, v)
  {}

  /** The payload of a batch: attributes, last offset delta, the two timestamps, producer id and epoch,
      base sequence, records. */
  function Payload(b: RecordBatch): Bytes {
    SignedBytes(b.attributes, 2) + SignedBytes(b.lastOffsetDelta, 4) + SignedBytes(b.baseTimestamp, 8)
    + SignedBytes(b.maxTimestamp, 8) + SignedBytes(b.producerId, 8) + SignedBytes(b.producerEpoch, 2)
    + SignedBytes(b.baseSequence, 4) + SignedBytes(|b.records|, 4) + AllRecordBytes(b.records)
  }

  lemma PayloadLayout(b: RecordBatch)
    ensures PayloadBytes(b) == Payload(b)
  {
    var fs, parts := PAYLOAD_FIELDS, PayloadParts(b);
    RecordsLayout(b.records);
    hide SerializeAll, SignedBytes, SerializeNullable, SerializeFields, AllRecordBytes;
    Field(fs, parts, 0);
    Field(fs, parts, 1);
    Field(fs, parts, 2);
    Field(fs, parts, 3);
    Field(fs, parts, 4);
    Field(fs, parts, 5);
    Field(fs, parts, 6);
    Field(fs, parts, 7);
    assert [] + SignedBytes(b.attributes, 2) == SignedBytes(b.attributes, 2);
    LastTwo(SerializeFields(fs, parts, 7), SignedBytes(|b.records|, 4), AllRecordBytes(b.records));
  }

  /** Any batch: base offset delta, the length of what follows the length, leader epoch, version with 0
      written as 1, the checksum of the payload, the payload. */
  lemma BatchLayout(b: RecordBatch)
    ensures BatchBytes(b) ==
            SignedBytes(b.baseOffsetDelta, 4) + SignedBytes(9 + |Payload(b)|, 4)
            + SignedBytes(b.partitionLeaderEpoch, 4) + SignedBytes(if b.magic == 0 then 1 else b.magic, 1)
            + SignedBytes(ChecksumField(Payload(b)), 4) + Payload(b)
  {
    PayloadLayout(b);
    hide PayloadBytes, Payload, SignedBytes, ChecksumField;
  }

  /** The payload of a produced batch. */
  function AttemptPayload(messages: seq<Message>, id: Identity, now: Int64): Bytes {
    [0, 0] + SignedBytes(Cast32(|messages| - 1), 4) + SignedBytes(now, 8) + SignedBytes(now, 8)
    + SignedBytes(id.producerId, 8) + SignedBytes(id.epoch, 2) + SignedBytes(id.baseSequence, 4)
    + SignedBytes(|messages|, 4) + AllMessageBytes(messages)
  }

  /** A produced batch, from the caller's records to the bytes: offset 0, the length of what follows the
      length, the leader epoch, version 1, the checksum of the payload, the payload. */
  lemma AttemptLayout(messages: seq<Message>, id: Identity, leaderEpoch: Int32, now: Int64)
    ensures var payload := AttemptPayload(messages, id, now);
            BatchBytes(ProducerBatch(messages, id, leaderEpoch, now)) ==
            [0, 0, 0, 0] + SignedBytes(9 + |payload|, 4) + SignedBytes(leaderEpoch, 4) + [1]
            + SignedBytes(ChecksumField(payload), 4) + payload
  {
    var b := ProducerBatch(messages, id, leaderEpoch, now);
    MessagesLayout(messages);
    ZeroFields();
    hide SignedBytes, ChecksumField, AllRecordBytes, AllMessageBytes, BatchBytes, ProtocolRecords;
    assert Payload(b) == AttemptPayload(messages, id, now);
    BatchLayout(b);
    hide Payload, AttemptPayload;
  }

  /** One whole batch: without records and with zero fields it is these 57 bytes. */
  lemma EmptyBatch()
    ensures BatchBytes(RecordBatch(0, 0, 0, 1, 0, 0, 0, 0, 0, 0, 0, 0, [])) ==
            [0, 0, 0, 0, 0, 0, 0, 49, 0, 0, 0, 0, 1, 0x59, 0x5F, 0xB7, 0xDD] + Zeros(40)
  {
    var b := RecordBatch(0, 0, 0, 1, 0, 0, 0, 0, 0, 0, 0, 0, []);
    hide *;
    EmptyPayload(b);
    ManyZeros();
    ZeroField();
    ZeroFields();
    SomeInts();
    BatchLayout(b);
    Prefixed(Zeros(40));
  }

  lemma SomeInts()
    ensures SignedBytes(49, 4) == [0, 0, 0, 49] && SignedBytes(0x595F_B7DD, 4) == [0x59, 0x5F, 0xB7, 0xDD]
  {
    hide SignedBytes;
    IntBytes(49);
    IntBytes(0x595F_B7DD);
  }

  lemma ManyZeros()
    ensures |Zeros(40)| == 40
  {}

  lemma Prefixed(payload: Bytes)
    ensures [0, 0, 0, 0] + [0, 0, 0, 49] + [0, 0, 0, 0] + [1] + [0x59, 0x5F, 0xB7, 0xDD] + payload ==
            [0, 0, 0, 0, 0, 0, 0, 49, 0, 0, 0, 0, 1, 0x59, 0x5F, 0xB7, 0xDD] + payload
  {}

  lemma ZeroField()
    ensures ChecksumField(Zeros(40)) == 0x595F_B7DD
  {
    ZeroValues();
    hide Checksum, Zeros;
  }

  lemma EmptyPayload(b: RecordBatch)
    requires b == RecordBatch(0, 0, 0, 1, 0, 0, 0, 0, 0, 0, 0, 0, [])
    ensures Payload(b) == Zeros(40)
  {
    ZeroFields();
    hide SignedBytes;
    assert AllRecordBytes([]) == [];
  }

  /** Strings of up to 2^15 - 1 bytes of text can be written, and no others. */
  lemma StringLimit(s: Bytes)
    ensures Writable(NullableString, BytesV(Some(s))) <==> ValidUtf8(s) && |s| <= 32767
  {}
}
