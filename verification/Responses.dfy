/** The nested responses: Metadata (protocol/codec/metadata.go) and Fetch (protocol/codec/fetch.go).
    Each layout is a format of module `Wire`; each decoder is proved to read exactly that format.
    A decoder maps unknown error codes to one known code, so what it returns is the `Known...` form
    of the value that stands in the bytes. */
module Responses {
  import opened Wrappers
  import opened Wire
  import opened Binary

  const UNKNOWN_SERVER_ERROR: Int16 := 1

  /** Codes 0 to 27 are known; every other code reads as an unknown server error. */
  function ErrorCodeFromCode(code: Int16): Int16 {
    if 0 <= code <= 27 then code else UNKNOWN_SERVER_ERROR
  }

  // -------------------------------------------------------- layouts and values

  /** A broker endpoint. */
  datatype Broker = Broker(brokerId: Int32, host: Option<Bytes>, port: Int32, rack: Option<Bytes>)

  const BROKER_FIELDS := [Int(4), NullableString, Int(4), NullableString]
  const BROKER := Struct(BROKER_FIELDS)

  function BrokerParts(x: Broker): (parts: seq<Value>)
    ensures |parts| == |BROKER_FIELDS|
  {
    [IntV(x.brokerId), BytesV(x.host), IntV(x.port), BytesV(x.rack)]
  }

  function BrokerV(x: Broker): Value { StructV(BrokerParts(x)) }

  function BrokersV(xs: seq<Broker>): (items: seq<Value>)
    ensures |items| == |xs|
  {
    seq(|xs|, i requires 0 <= i < |xs| => BrokerV(xs[i]))
  }

  /** A partition of a topic. */
  datatype Partition = Partition(errorCode: Int16, partition: Int32, leaderId: Int32, leaderEpoch: Int32, replicaNodes: seq<Int32>, isrNodes: seq<Int32>, offlineReplicaNodes: seq<Int32>)

  const PARTITION_FIELDS := [Int(2), Int(4), Int(4), Int(4), Array(Int(4)), Array(Int(4)), Array(Int(4))]
  const PARTITION := Struct(PARTITION_FIELDS)

  function PartitionParts(x: Partition): (parts: seq<Value>)
    ensures |parts| == |PARTITION_FIELDS|
  {
    [IntV(x.errorCode), IntV(x.partition), IntV(x.leaderId), IntV(x.leaderEpoch), Int32sV(x.replicaNodes), Int32sV(x.isrNodes), Int32sV(x.offlineReplicaNodes)]
  }

  function PartitionV(x: Partition): Value { StructV(PartitionParts(x)) }

  function PartitionsV(xs: seq<Partition>): (items: seq<Value>)
    ensures |items| == |xs|
  {
    seq(|xs|, i requires 0 <= i < |xs| => PartitionV(xs[i]))
  }

  function KnownPartition(x: Partition): Partition {
    x.(errorCode := ErrorCodeFromCode(x.errorCode))
  }

  function KnownPartitions(xs: seq<Partition>): (ys: seq<Partition>)
    ensures |ys| == |xs|
  {
    seq(|xs|, i requires 0 <= i < |xs| => KnownPartition(xs[i]))
  }

  /** A topic with its partitions. */
  datatype Topic = Topic(errorCode: Int16, name: Option<Bytes>, internalTopic: bool, partitions: seq<Partition>, authorizedOperations: Int32)

  const TOPIC_FIELDS := [Int(2), NullableString, Boolean, Array(PARTITION), Int(4)]
  const TOPIC := Struct(TOPIC_FIELDS)

  function TopicParts(x: Topic): (parts: seq<Value>)
    ensures |parts| == |TOPIC_FIELDS|
  {
    [IntV(x.errorCode), BytesV(x.name), BoolV(x.internalTopic), ArrayV(PartitionsV(x.partitions)), IntV(x.authorizedOperations)]
  }

  function TopicV(x: Topic): Value { StructV(TopicParts(x)) }

  function TopicsV(xs: seq<Topic>): (items: seq<Value>)
    ensures |items| == |xs|
  {
    seq(|xs|, i requires 0 <= i < |xs| => TopicV(xs[i]))
  }

  function KnownTopic(x: Topic): Topic {
    x.(errorCode := ErrorCodeFromCode(x.errorCode), partitions := KnownPartitions(x.partitions))
  }

  function KnownTopics(xs: seq<Topic>): (ys: seq<Topic>)
    ensures |ys| == |xs|
  {
    seq(|xs|, i requires 0 <= i < |xs| => KnownTopic(xs[i]))
  }

  /** The body of a Metadata response. */
  datatype Metadata = Metadata(clusterId: Option<Bytes>, controllerId: Int32, brokers: seq<Broker>, topics: seq<Topic>, authorizedOperations: Int32)

  const METADATA_FIELDS := [NullableString, Int(4), Array(BROKER), Array(TOPIC), Int(4)]
  const METADATA := Struct(METADATA_FIELDS)

  function MetadataParts(x: Metadata): (parts: seq<Value>)
    ensures |parts| == |METADATA_FIELDS|
  {
    [BytesV(x.clusterId), IntV(x.controllerId), ArrayV(BrokersV(x.brokers)), ArrayV(TopicsV(x.topics)), IntV(x.authorizedOperations)]
  }

  function MetadataV(x: Metadata): Value { StructV(MetadataParts(x)) }

  function KnownMetadata(x: Metadata): Metadata {
    x.(topics := KnownTopics(x.topics))
  }

  /** An aborted transactional range. */
  datatype Aborted = Aborted(producerId: Int64, firstOffset: Int64)

  const ABORTED_FIELDS := [Int(8), Int(8)]
  const ABORTED := Struct(ABORTED_FIELDS)

  function AbortedParts(x: Aborted): (parts: seq<Value>)
    ensures |parts| == |ABORTED_FIELDS|
  {
    [IntV(x.producerId), IntV(x.firstOffset)]
  }

  function AbortedV(x: Aborted): Value { StructV(AbortedParts(x)) }

  function AbortedTransactionsV(xs: seq<Aborted>): (items: seq<Value>)
    ensures |items| == |xs|
  {
    seq(|xs|, i requires 0 <= i < |xs| => AbortedV(xs[i]))
  }

  /** What was fetched from a partition. */
  datatype FetchPartition = FetchPartition(partition: Int32, errorCode: Int16, highWatermark: Int64, logStartOffset: Int64, lastStableOffset: Int64, aborted: seq<Aborted>, records: Option<Bytes>)

  const FETCH_PARTITION_FIELDS := [Int(4), Int(2), Int(8), Int(8), Int(8), Array(ABORTED), NullableBytes]
  const FETCH_PARTITION := Struct(FETCH_PARTITION_FIELDS)

  function FetchPartitionParts(x: FetchPartition): (parts: seq<Value>)
    ensures |parts| == |FETCH_PARTITION_FIELDS|
  {
    [IntV(x.partition), IntV(x.errorCode), IntV(x.highWatermark), IntV(x.logStartOffset), IntV(x.lastStableOffset), ArrayV(AbortedTransactionsV(x.aborted)), BytesV(x.records)]
  }

  function FetchPartitionV(x: FetchPartition): Value { StructV(FetchPartitionParts(x)) }

  function FetchPartitionsV(xs: seq<FetchPartition>): (items: seq<Value>)
    ensures |items| == |xs|
  {
    seq(|xs|, i requires 0 <= i < |xs| => FetchPartitionV(xs[i]))
  }

  function KnownFetchPartition(x: FetchPartition): FetchPartition {
    x.(errorCode := ErrorCodeFromCode(x.errorCode))
  }

  function KnownFetchPartitions(xs: seq<FetchPartition>): (ys: seq<FetchPartition>)
    ensures |ys| == |xs|
  {
    seq(|xs|, i requires 0 <= i < |xs| => KnownFetchPartition(xs[i]))
  }

  /** What was fetched from a topic. */
  datatype FetchTopic = FetchTopic(name: Option<Bytes>, partitions: seq<FetchPartition>)

  const FETCH_TOPIC_FIELDS := [NullableString, Array(FETCH_PARTITION)]
  const FETCH_TOPIC := Struct(FETCH_TOPIC_FIELDS)

  function FetchTopicParts(x: FetchTopic): (parts: seq<Value>)
    ensures |parts| == |FETCH_TOPIC_FIELDS|
  {
    [BytesV(x.name), ArrayV(FetchPartitionsV(x.partitions))]
  }

  function FetchTopicV(x: FetchTopic): Value { StructV(FetchTopicParts(x)) }

  function FetchTopicsV(xs: seq<FetchTopic>): (items: seq<Value>)
    ensures |items| == |xs|
  {
    seq(|xs|, i requires 0 <= i < |xs| => FetchTopicV(xs[i]))
  }

  function KnownFetchTopic(x: FetchTopic): FetchTopic {
    x.(partitions := KnownFetchPartitions(x.partitions))
  }

  function KnownFetchTopics(xs: seq<FetchTopic>): (ys: seq<FetchTopic>)
    ensures |ys| == |xs|
  {
    seq(|xs|, i requires 0 <= i < |xs| => KnownFetchTopic(xs[i]))
  }

  /** The body of a Fetch response. */
  datatype Fetch = Fetch(sessionId: Int32, topics: seq<FetchTopic>)

  const FETCH_FIELDS := [Int(4), Array(FETCH_TOPIC)]
  const FETCH := Struct(FETCH_FIELDS)

  function FetchParts(x: Fetch): (parts: seq<Value>)
    ensures |parts| == |FETCH_FIELDS|
  {
    [IntV(x.sessionId), ArrayV(FetchTopicsV(x.topics))]
  }

  function FetchV(x: Fetch): Value { StructV(FetchParts(x)) }

  function KnownFetch(x: Fetch): Fetch {
    x.(topics := KnownFetchTopics(x.topics))
  }

  // ------------------------------------------------------------------ decoders

  lemma BrokerLayout()
    ensures BROKER == Struct(BROKER_FIELDS) && |BROKER_FIELDS| == 4
    ensures BROKER_FIELDS[0] == Int(4)
    ensures BROKER_FIELDS[1] == NullableString
    ensures BROKER_FIELDS[2] == Int(4)
    ensures BROKER_FIELDS[3] == NullableString
  {}

  lemma BrokerBuilt(x: Broker, parts: seq<Value>)
    requires parts == [] + [IntV(x.brokerId)] + [BytesV(x.host)] + [IntV(x.port)] + [BytesV(x.rack)]
    ensures StructV(parts) == BrokerV(x)
  {}

  method DecodeBroker(r: Reader) returns (x: Option<Broker>)
    requires r.Valid()
    modifies r
    ensures r.Valid()
    ensures x.None? ==> Parse(BROKER, r.bytes, old(r.pos)).None?
    ensures x.Some? ==> Parse(BROKER, r.bytes, old(r.pos)) == Some((BrokerV(x.value), r.pos))
  {
    ghost var b, start := r.bytes, r.pos;
    BrokerLayout();
    StartStruct(BROKER_FIELDS, b, start);
    hide *;
    ghost var parts: seq<Value> := [];
    NextField(BROKER_FIELDS, b, start, parts, r.pos);
    var brokerId := r.ReadInt32();
    if brokerId.None? {
      return None;
    }
    parts := parts + [IntV(brokerId.value)];
    NextField(BROKER_FIELDS, b, start, parts, r.pos);
    var host := r.ReadNullableString();
    if host.None? {
      return None;
    }
    parts := parts + [BytesV(host.value)];
    NextField(BROKER_FIELDS, b, start, parts, r.pos);
    var port := r.ReadInt32();
    if port.None? {
      return None;
    }
    parts := parts + [IntV(port.value)];
    NextField(BROKER_FIELDS, b, start, parts, r.pos);
    var rack := r.ReadNullableString();
    if rack.None? {
      return None;
    }
    parts := parts + [BytesV(rack.value)];
    EndStruct(BROKER_FIELDS, b, start, parts, r.pos);
    x := Some(Broker(brokerId.value, host.value, port.value, rack.value));
    BrokerBuilt(x.value, parts);
  }

  lemma BrokersGrow(xs: seq<Broker>, x: Broker)
    ensures BrokersV([]) == []
    ensures BrokersV(xs + [x]) == BrokersV(xs) + [BrokerV(x)]
  {
    hide BrokerV;
  }

  method DecodeBrokers(r: Reader) returns (xs: Option<seq<Broker>>)
    requires r.Valid()
    modifies r
    ensures r.Valid()
    ensures xs.None? ==> Parse(Array(BROKER), r.bytes, old(r.pos)).None?
    ensures xs.Some? ==> Parse(Array(BROKER), r.bytes, old(r.pos)) == Some((ArrayV(BrokersV(xs.value)), r.pos))
  {
    ghost var b, start := r.bytes, r.pos;
    hide *;
    ArrayParses(BROKER, b, start);
    ManyParsesNone(BROKER, b, start + 4);
    var length := r.ReadArrayLen();
    if length.None? {
      return None;
    }
    var list: seq<Broker> := [];
    ghost var none: Broker := *;
    BrokersGrow([], none);
    for i := 0 to length.value
      invariant r.Valid() && ParseMany(BROKER, b, start + 4, i) == Some((BrokersV(list), r.pos))
    {
      NextItem(BROKER, b, start, length.value, i, BrokersV(list), r.pos);
      var x := DecodeBroker(r);
      if x.None? {
        return None;
      }
      BrokersGrow(list, x.value);
      list := list + [x.value];
    }
    xs := Some(list);
  }

  lemma PartitionLayout()
    ensures PARTITION == Struct(PARTITION_FIELDS) && |PARTITION_FIELDS| == 7
    ensures PARTITION_FIELDS[0] == Int(2)
    ensures PARTITION_FIELDS[1] == Int(4)
    ensures PARTITION_FIELDS[2] == Int(4)
    ensures PARTITION_FIELDS[3] == Int(4)
    ensures PARTITION_FIELDS[4] == Array(Int(4))
    ensures PARTITION_FIELDS[5] == Array(Int(4))
    ensures PARTITION_FIELDS[6] == Array(Int(4))
  {}

  lemma PartitionBuilt(x: Partition, parts: seq<Value>)
    requires parts == [] + [IntV(x.errorCode)] + [IntV(x.partition)] + [IntV(x.leaderId)] + [IntV(x.leaderEpoch)] + [Int32sV(x.replicaNodes)] + [Int32sV(x.isrNodes)] + [Int32sV(x.offlineReplicaNodes)]
    ensures StructV(parts) == PartitionV(x)
  {}

  lemma PartitionKnown(x: Partition)
    ensures KnownPartition(x) == Partition(ErrorCodeFromCode(x.errorCode), x.partition, x.leaderId, x.leaderEpoch, x.replicaNodes, x.isrNodes, x.offlineReplicaNodes)
  {}

  function PartitionHead(h: (Int16, Int32, Int32, Int32)): (parts: seq<Value>)
    ensures |parts| == 4
  {
    [IntV(h.0), IntV(h.1), IntV(h.2), IntV(h.3)]
  }

  lemma PartitionHeadBuilt(h: (Int16, Int32, Int32, Int32), parts: seq<Value>)
    requires parts == [] + [IntV(h.0)] + [IntV(h.1)] + [IntV(h.2)] + [IntV(h.3)]
    ensures parts == PartitionHead(h)
  {}

  lemma PartitionTail(x: Partition)
    ensures [] + [IntV(x.errorCode)] + [IntV(x.partition)] + [IntV(x.leaderId)] + [IntV(x.leaderEpoch)] + [Int32sV(x.replicaNodes)] + [Int32sV(x.isrNodes)] + [Int32sV(x.offlineReplicaNodes)]
         == PartitionHead((x.errorCode, x.partition, x.leaderId, x.leaderEpoch)) + [Int32sV(x.replicaNodes)] + [Int32sV(x.isrNodes)] + [Int32sV(x.offlineReplicaNodes)]
  {}

  /** Reads the integers at the head. */
  method DecodePartitionHead(r: Reader) returns (h: Option<(Int16, Int32, Int32, Int32)>)
    requires r.Valid()
    modifies r
    ensures r.Valid()
    ensures h.None? ==> Parse(PARTITION, r.bytes, old(r.pos)).None?
    ensures h.Some? ==> Reached(PARTITION_FIELDS, r.bytes, old(r.pos), PartitionHead(h.value), r.pos)
  {
    ghost var b, start := r.bytes, r.pos;
    PartitionLayout();
    StartStruct(PARTITION_FIELDS, b, start);
    hide *;
    ghost var parts: seq<Value> := [];
    NextField(PARTITION_FIELDS, b, start, parts, r.pos);
    var errorCode := r.ReadInt16();
    if errorCode.None? {
      return None;
    }
    parts := parts + [IntV(errorCode.value)];
    NextField(PARTITION_FIELDS, b, start, parts, r.pos);
    var partition := r.ReadInt32();
    if partition.None? {
      return None;
    }
    parts := parts + [IntV(partition.value)];
    NextField(PARTITION_FIELDS, b, start, parts, r.pos);
    var leaderId := r.ReadInt32();
    if leaderId.None? {
      return None;
    }
    parts := parts + [IntV(leaderId.value)];
    NextField(PARTITION_FIELDS, b, start, parts, r.pos);
    var leaderEpoch := r.ReadInt32();
    if leaderEpoch.None? {
      return None;
    }
    parts := parts + [IntV(leaderEpoch.value)];
    h := Some((errorCode.value, partition.value, leaderId.value, leaderEpoch.value));
    PartitionHeadBuilt(h.value, parts);
  }

  method DecodePartition(r: Reader) returns (x: Option<Partition>, ghost raw: Partition)
    requires r.Valid()
    modifies r
    ensures r.Valid()
    ensures x.None? ==> Parse(PARTITION, r.bytes, old(r.pos)).None?
    ensures x.Some? ==> Parse(PARTITION, r.bytes, old(r.pos)) == Some((PartitionV(raw), r.pos)) && x.value == KnownPartition(raw)
  {
    ghost var b, start := r.bytes, r.pos;
    PartitionLayout();
    hide *;
    raw := *;
    var head := DecodePartitionHead(r);
    if head.None? {
      return None, raw;
    }
    ghost var parts := PartitionHead(head.value);
    NextField(PARTITION_FIELDS, b, start, parts, r.pos);
    var replicaNodes := r.ReadInt32Array();
    if replicaNodes.None? {
      return None, raw;
    }
    parts := parts + [Int32sV(replicaNodes.value)];
    NextField(PARTITION_FIELDS, b, start, parts, r.pos);
    var isrNodes := r.ReadInt32Array();
    if isrNodes.None? {
      return None, raw;
    }
    parts := parts + [Int32sV(isrNodes.value)];
    NextField(PARTITION_FIELDS, b, start, parts, r.pos);
    var offlineReplicaNodes := r.ReadInt32Array();
    if offlineReplicaNodes.None? {
      return None, raw;
    }
    parts := parts + [Int32sV(offlineReplicaNodes.value)];
    EndStruct(PARTITION_FIELDS, b, start, parts, r.pos);
    raw := Partition(head.value.0, head.value.1, head.value.2, head.value.3, replicaNodes.value, isrNodes.value, offlineReplicaNodes.value);
    PartitionTail(raw);
    PartitionBuilt(raw, parts);
    PartitionKnown(raw);
    x := Some(Partition(ErrorCodeFromCode(head.value.0), head.value.1, head.value.2, head.value.3, replicaNodes.value, isrNodes.value, offlineReplicaNodes.value));
  }

  lemma PartitionsGrow(xs: seq<Partition>, x: Partition)
    ensures PartitionsV([]) == [] && KnownPartitions([]) == []
    ensures PartitionsV(xs + [x]) == PartitionsV(xs) + [PartitionV(x)]
    ensures KnownPartitions(xs + [x]) == KnownPartitions(xs) + [KnownPartition(x)]
  {
    hide PartitionV, KnownPartition;
  }

  method DecodePartitions(r: Reader) returns (xs: Option<seq<Partition>>, ghost raw: seq<Partition>)
    requires r.Valid()
    modifies r
    ensures r.Valid()
    ensures xs.None? ==> Parse(Array(PARTITION), r.bytes, old(r.pos)).None?
    ensures xs.Some? ==>
              && Parse(Array(PARTITION), r.bytes, old(r.pos)) == Some((ArrayV(PartitionsV(raw)), r.pos))
              && xs.value == KnownPartitions(raw)
  {
    ghost var b, start := r.bytes, r.pos;
    hide *;
    raw := [];
    ArrayParses(PARTITION, b, start);
    ManyParsesNone(PARTITION, b, start + 4);
    var length := r.ReadArrayLen();
    if length.None? {
      return None, raw;
    }
    var list: seq<Partition> := [];
    ghost var none: Partition := *;
    PartitionsGrow([], none);
    for i := 0 to length.value
      invariant r.Valid() && ParseMany(PARTITION, b, start + 4, i) == Some((PartitionsV(raw), r.pos))
      invariant list == KnownPartitions(raw)
    {
      NextItem(PARTITION, b, start, length.value, i, PartitionsV(raw), r.pos);
      var x, one := DecodePartition(r);
      if x.None? {
        return None, raw;
      }
      PartitionsGrow(raw, one);
      raw := raw + [one];
      list := list + [x.value];
    }
    xs := Some(list);
  }

  lemma TopicLayout()
    ensures TOPIC == Struct(TOPIC_FIELDS) && |TOPIC_FIELDS| == 5
    ensures TOPIC_FIELDS[0] == Int(2)
    ensures TOPIC_FIELDS[1] == NullableString
    ensures TOPIC_FIELDS[2] == Boolean
    ensures TOPIC_FIELDS[3] == Array(PARTITION)
    ensures TOPIC_FIELDS[4] == Int(4)
  {}

  lemma TopicBuilt(x: Topic, parts: seq<Value>)
    requires parts == [] + [IntV(x.errorCode)] + [BytesV(x.name)] + [BoolV(x.internalTopic)] + [ArrayV(PartitionsV(x.partitions))] + [IntV(x.authorizedOperations)]
    ensures StructV(parts) == TopicV(x)
  {}

  lemma TopicKnown(x: Topic)
    ensures KnownTopic(x) == Topic(ErrorCodeFromCode(x.errorCode), x.name, x.internalTopic, KnownPartitions(x.partitions), x.authorizedOperations)
  {}

  method DecodeTopic(r: Reader) returns (x: Option<Topic>, ghost raw: Topic)
    requires r.Valid()
    modifies r
    ensures r.Valid()
    ensures x.None? ==> Parse(TOPIC, r.bytes, old(r.pos)).None?
    ensures x.Some? ==> Parse(TOPIC, r.bytes, old(r.pos)) == Some((TopicV(raw), r.pos)) && x.value == KnownTopic(raw)
  {
    ghost var b, start := r.bytes, r.pos;
    TopicLayout();
    StartStruct(TOPIC_FIELDS, b, start);
    hide *;
    raw := *;
    ghost var parts: seq<Value> := [];
    NextField(TOPIC_FIELDS, b, start, parts, r.pos);
    var errorCode := r.ReadInt16();
    if errorCode.None? {
      return None, raw;
    }
    parts := parts + [IntV(errorCode.value)];
    NextField(TOPIC_FIELDS, b, start, parts, r.pos);
    var name := r.ReadNullableString();
    if name.None? {
      return None, raw;
    }
    parts := parts + [BytesV(name.value)];
    NextField(TOPIC_FIELDS, b, start, parts, r.pos);
    var internalTopic := r.ReadBool();
    if internalTopic.None? {
      return None, raw;
    }
    parts := parts + [BoolV(internalTopic.value)];
    NextField(TOPIC_FIELDS, b, start, parts, r.pos);
    var partitions, rawPartitions := DecodePartitions(r);
    if partitions.None? {
      return None, raw;
    }
    parts := parts + [ArrayV(PartitionsV(rawPartitions))];
    NextField(TOPIC_FIELDS, b, start, parts, r.pos);
    var authorizedOperations := r.ReadInt32();
    if authorizedOperations.None? {
      return None, raw;
    }
    parts := parts + [IntV(authorizedOperations.value)];
    EndStruct(TOPIC_FIELDS, b, start, parts, r.pos);
    raw := Topic(errorCode.value, name.value, internalTopic.value, rawPartitions, authorizedOperations.value);
    TopicBuilt(raw, parts);
    TopicKnown(raw);
    x := Some(Topic(ErrorCodeFromCode(errorCode.value), name.value, internalTopic.value, partitions.value, authorizedOperations.value));
  }

  lemma TopicsGrow(xs: seq<Topic>, x: Topic)
    ensures TopicsV([]) == [] && KnownTopics([]) == []
    ensures TopicsV(xs + [x]) == TopicsV(xs) + [TopicV(x)]
    ensures KnownTopics(xs + [x]) == KnownTopics(xs) + [KnownTopic(x)]
  {
    hide TopicV, KnownTopic;
  }

  method DecodeTopics(r: Reader) returns (xs: Option<seq<Topic>>, ghost raw: seq<Topic>)
    requires r.Valid()
    modifies r
    ensures r.Valid()
    ensures xs.None? ==> Parse(Array(TOPIC), r.bytes, old(r.pos)).None?
    ensures xs.Some? ==>
              && Parse(Array(TOPIC), r.bytes, old(r.pos)) == Some((ArrayV(TopicsV(raw)), r.pos))
              && xs.value == KnownTopics(raw)
  {
    ghost var b, start := r.bytes, r.pos;
    hide *;
    raw := [];
    ArrayParses(TOPIC, b, start);
    ManyParsesNone(TOPIC, b, start + 4);
    var length := r.ReadArrayLen();
    if length.None? {
      return None, raw;
    }
    var list: seq<Topic> := [];
    ghost var none: Topic := *;
    TopicsGrow([], none);
    for i := 0 to length.value
      invariant r.Valid() && ParseMany(TOPIC, b, start + 4, i) == Some((TopicsV(raw), r.pos))
      invariant list == KnownTopics(raw)
    {
      NextItem(TOPIC, b, start, length.value, i, TopicsV(raw), r.pos);
      var x, one := DecodeTopic(r);
      if x.None? {
        return None, raw;
      }
      TopicsGrow(raw, one);
      raw := raw + [one];
      list := list + [x.value];
    }
    xs := Some(list);
  }

  lemma MetadataLayout()
    ensures METADATA == Struct(METADATA_FIELDS) && |METADATA_FIELDS| == 5
    ensures METADATA_FIELDS[0] == NullableString
    ensures METADATA_FIELDS[1] == Int(4)
    ensures METADATA_FIELDS[2] == Array(BROKER)
    ensures METADATA_FIELDS[3] == Array(TOPIC)
    ensures METADATA_FIELDS[4] == Int(4)
  {}

  lemma MetadataBuilt(x: Metadata, parts: seq<Value>)
    requires parts == [] + [BytesV(x.clusterId)] + [IntV(x.controllerId)] + [ArrayV(BrokersV(x.brokers))] + [ArrayV(TopicsV(x.topics))] + [IntV(x.authorizedOperations)]
    ensures StructV(parts) == MetadataV(x)
  {}

  lemma MetadataKnown(x: Metadata)
    ensures KnownMetadata(x) == Metadata(x.clusterId, x.controllerId, x.brokers, KnownTopics(x.topics), x.authorizedOperations)
  {}

  method DecodeMetadata(r: Reader) returns (x: Option<Metadata>, ghost raw: Metadata)
    requires r.Valid()
    modifies r
    ensures r.Valid()
    ensures x.None? ==> Parse(METADATA, r.bytes, old(r.pos)).None?
    ensures x.Some? ==> Parse(METADATA, r.bytes, old(r.pos)) == Some((MetadataV(raw), r.pos)) && x.value == KnownMetadata(raw)
  {
    ghost var b, start := r.bytes, r.pos;
    MetadataLayout();
    StartStruct(METADATA_FIELDS, b, start);
    hide *;
    raw := *;
    ghost var parts: seq<Value> := [];
    NextField(METADATA_FIELDS, b, start, parts, r.pos);
    var clusterId := r.ReadNullableString();
    if clusterId.None? {
      return None, raw;
    }
    parts := parts + [BytesV(clusterId.value)];
    NextField(METADATA_FIELDS, b, start, parts, r.pos);
    var controllerId := r.ReadInt32();
    if controllerId.None? {
      return None, raw;
    }
    parts := parts + [IntV(controllerId.value)];
    NextField(METADATA_FIELDS, b, start, parts, r.pos);
    var brokers := DecodeBrokers(r);
    if brokers.None? {
      return None, raw;
    }
    parts := parts + [ArrayV(BrokersV(brokers.value))];
    NextField(METADATA_FIELDS, b, start, parts, r.pos);
    var topics, rawTopics := DecodeTopics(r);
    if topics.None? {
      return None, raw;
    }
    parts := parts + [ArrayV(TopicsV(rawTopics))];
    NextField(METADATA_FIELDS, b, start, parts, r.pos);
    var authorizedOperations := r.ReadInt32();
    if authorizedOperations.None? {
      return None, raw;
    }
    parts := parts + [IntV(authorizedOperations.value)];
    EndStruct(METADATA_FIELDS, b, start, parts, r.pos);
    raw := Metadata(clusterId.value, controllerId.value, brokers.value, rawTopics, authorizedOperations.value);
    MetadataBuilt(raw, parts);
    MetadataKnown(raw);
    x := Some(Metadata(clusterId.value, controllerId.value, brokers.value, topics.value, authorizedOperations.value));
  }

  lemma AbortedLayout()
    ensures ABORTED == Struct(ABORTED_FIELDS) && |ABORTED_FIELDS| == 2
    ensures ABORTED_FIELDS[0] == Int(8)
    ensures ABORTED_FIELDS[1] == Int(8)
  {}

  lemma AbortedBuilt(x: Aborted, parts: seq<Value>)
    requires parts == [] + [IntV(x.producerId)] + [IntV(x.firstOffset)]
    ensures StructV(parts) == AbortedV(x)
  {}

  method DecodeAborted(r: Reader) returns (x: Option<Aborted>)
    requires r.Valid()
    modifies r
    ensures r.Valid()
    ensures x.None? ==> Parse(ABORTED, r.bytes, old(r.pos)).None?
    ensures x.Some? ==> Parse(ABORTED, r.bytes, old(r.pos)) == Some((AbortedV(x.value), r.pos))
  {
    ghost var b, start := r.bytes, r.pos;
    AbortedLayout();
    StartStruct(ABORTED_FIELDS, b, start);
    hide *;
    ghost var parts: seq<Value> := [];
    NextField(ABORTED_FIELDS, b, start, parts, r.pos);
    var producerId := r.ReadInt64();
    if producerId.None? {
      return None;
    }
    parts := parts + [IntV(producerId.value)];
    NextField(ABORTED_FIELDS, b, start, parts, r.pos);
    var firstOffset := r.ReadInt64();
    if firstOffset.None? {
      return None;
    }
    parts := parts + [IntV(firstOffset.value)];
    EndStruct(ABORTED_FIELDS, b, start, parts, r.pos);
    x := Some(Aborted(producerId.value, firstOffset.value));
    AbortedBuilt(x.value, parts);
  }

  lemma AbortedTransactionsGrow(xs: seq<Aborted>, x: Aborted)
    ensures AbortedTransactionsV([]) == []
    ensures AbortedTransactionsV(xs + [x]) == AbortedTransactionsV(xs) + [AbortedV(x)]
  {
    hide AbortedV;
  }

  method DecodeAbortedTransactions(r: Reader) returns (xs: Option<seq<Aborted>>)
    requires r.Valid()
    modifies r
    ensures r.Valid()
    ensures xs.None? ==> Parse(Array(ABORTED), r.bytes, old(r.pos)).None?
    ensures xs.Some? ==> Parse(Array(ABORTED), r.bytes, old(r.pos)) == Some((ArrayV(AbortedTransactionsV(xs.value)), r.pos))
  {
    ghost var b, start := r.bytes, r.pos;
    hide *;
    ArrayParses(ABORTED, b, start);
    ManyParsesNone(ABORTED, b, start + 4);
    var length := r.ReadArrayLen();
    if length.None? {
      return None;
    }
    var list: seq<Aborted> := [];
    ghost var none: Aborted := *;
    AbortedTransactionsGrow([], none);
    for i := 0 to length.value
      invariant r.Valid() && ParseMany(ABORTED, b, start + 4, i) == Some((AbortedTransactionsV(list), r.pos))
    {
      NextItem(ABORTED, b, start, length.value, i, AbortedTransactionsV(list), r.pos);
      var x := DecodeAborted(r);
      if x.None? {
        return None;
      }
      AbortedTransactionsGrow(list, x.value);
      list := list + [x.value];
    }
    xs := Some(list);
  }

  lemma FetchPartitionLayout()
    ensures FETCH_PARTITION == Struct(FETCH_PARTITION_FIELDS) && |FETCH_PARTITION_FIELDS| == 7
    ensures FETCH_PARTITION_FIELDS[0] == Int(4)
    ensures FETCH_PARTITION_FIELDS[1] == Int(2)
    ensures FETCH_PARTITION_FIELDS[2] == Int(8)
    ensures FETCH_PARTITION_FIELDS[3] == Int(8)
    ensures FETCH_PARTITION_FIELDS[4] == Int(8)
    ensures FETCH_PARTITION_FIELDS[5] == Array(ABORTED)
    ensures FETCH_PARTITION_FIELDS[6] == NullableBytes
  {}

  lemma FetchPartitionBuilt(x: FetchPartition, parts: seq<Value>)
    requires parts == [] + [IntV(x.partition)] + [IntV(x.errorCode)] + [IntV(x.highWatermark)] + [IntV(x.logStartOffset)] + [IntV(x.lastStableOffset)] + [ArrayV(AbortedTransactionsV(x.aborted))] + [BytesV(x.records)]
    ensures StructV(parts) == FetchPartitionV(x)
  {}

  lemma FetchPartitionKnown(x: FetchPartition)
    ensures KnownFetchPartition(x) == FetchPartition(x.partition, ErrorCodeFromCode(x.errorCode), x.highWatermark, x.logStartOffset, x.lastStableOffset, x.aborted, x.records)
  {}

  function FetchPartitionHead(h: (Int32, Int16, Int64, Int64)): (parts: seq<Value>)
    ensures |parts| == 4
  {
    [IntV(h.0), IntV(h.1), IntV(h.2), IntV(h.3)]
  }

  lemma FetchPartitionHeadBuilt(h: (Int32, Int16, Int64, Int64), parts: seq<Value>)
    requires parts == [] + [IntV(h.0)] + [IntV(h.1)] + [IntV(h.2)] + [IntV(h.3)]
    ensures parts == FetchPartitionHead(h)
  {}

  lemma FetchPartitionTail(x: FetchPartition)
    ensures [] + [IntV(x.partition)] + [IntV(x.errorCode)] + [IntV(x.highWatermark)] + [IntV(x.logStartOffset)] + [IntV(x.lastStableOffset)] + [ArrayV(AbortedTransactionsV(x.aborted))] + [BytesV(x.records)]
         == FetchPartitionHead((x.partition, x.errorCode, x.highWatermark, x.logStartOffset)) + [IntV(x.lastStableOffset)] + [ArrayV(AbortedTransactionsV(x.aborted))] + [BytesV(x.records)]
  {}

  /** Reads the integers at the head. */
  method DecodeFetchPartitionHead(r: Reader) returns (h: Option<(Int32, Int16, Int64, Int64)>)
    requires r.Valid()
    modifies r
    ensures r.Valid()
    ensures h.None? ==> Parse(FETCH_PARTITION, r.bytes, old(r.pos)).None?
    ensures h.Some? ==> Reached(FETCH_PARTITION_FIELDS, r.bytes, old(r.pos), FetchPartitionHead(h.value), r.pos)
  {
    ghost var b, start := r.bytes, r.pos;
    FetchPartitionLayout();
    StartStruct(FETCH_PARTITION_FIELDS, b, start);
    hide *;
    ghost var parts: seq<Value> := [];
    NextField(FETCH_PARTITION_FIELDS, b, start, parts, r.pos);
    var partition := r.ReadInt32();
    if partition.None? {
      return None;
    }
    parts := parts + [IntV(partition.value)];
    NextField(FETCH_PARTITION_FIELDS, b, start, parts, r.pos);
    var errorCode := r.ReadInt16();
    if errorCode.None? {
      return None;
    }
    parts := parts + [IntV(errorCode.value)];
    NextField(FETCH_PARTITION_FIELDS, b, start, parts, r.pos);
    var highWatermark := r.ReadInt64();
    if highWatermark.None? {
      return None;
    }
    parts := parts + [IntV(highWatermark.value)];
    NextField(FETCH_PARTITION_FIELDS, b, start, parts, r.pos);
    var logStartOffset := r.ReadInt64();
    if logStartOffset.None? {
      return None;
    }
    parts := parts + [IntV(logStartOffset.value)];
    h := Some((partition.value, errorCode.value, highWatermark.value, logStartOffset.value));
    FetchPartitionHeadBuilt(h.value, parts);
  }

  method DecodeFetchPartition(r: Reader) returns (x: Option<FetchPartition>, ghost raw: FetchPartition)
    requires r.Valid()
    modifies r
    ensures r.Valid()
    ensures x.None? ==> Parse(FETCH_PARTITION, r.bytes, old(r.pos)).None?
    ensures x.Some? ==> Parse(FETCH_PARTITION, r.bytes, old(r.pos)) == Some((FetchPartitionV(raw), r.pos)) && x.value == KnownFetchPartition(raw)
  {
    ghost var b, start := r.bytes, r.pos;
    FetchPartitionLayout();
    hide *;
    raw := *;
    var head := DecodeFetchPartitionHead(r);
    if head.None? {
      return None, raw;
    }
    ghost var parts := FetchPartitionHead(head.value);
    NextField(FETCH_PARTITION_FIELDS, b, start, parts, r.pos);
    var lastStableOffset := r.ReadInt64();
    if lastStableOffset.None? {
      return None, raw;
    }
    parts := parts + [IntV(lastStableOffset.value)];
    NextField(FETCH_PARTITION_FIELDS, b, start, parts, r.pos);
    var aborted := DecodeAbortedTransactions(r);
    if aborted.None? {
      return None, raw;
    }
    parts := parts + [ArrayV(AbortedTransactionsV(aborted.value))];
    NextField(FETCH_PARTITION_FIELDS, b, start, parts, r.pos);
    var records := r.ReadBytes();
    if records.None? {
      return None, raw;
    }
    parts := parts + [BytesV(records.value)];
    EndStruct(FETCH_PARTITION_FIELDS, b, start, parts, r.pos);
    raw := FetchPartition(head.value.0, head.value.1, head.value.2, head.value.3, lastStableOffset.value, aborted.value, records.value);
    FetchPartitionTail(raw);
    FetchPartitionBuilt(raw, parts);
    FetchPartitionKnown(raw);
    x := Some(FetchPartition(head.value.0, ErrorCodeFromCode(head.value.1), head.value.2, head.value.3, lastStableOffset.value, aborted.value, records.value));
  }

  lemma FetchPartitionsGrow(xs: seq<FetchPartition>, x: FetchPartition)
    ensures FetchPartitionsV([]) == [] && KnownFetchPartitions([]) == []
    ensures FetchPartitionsV(xs + [x]) == FetchPartitionsV(xs) + [FetchPartitionV(x)]
    ensures KnownFetchPartitions(xs + [x]) == KnownFetchPartitions(xs) + [KnownFetchPartition(x)]
  {
    hide FetchPartitionV, KnownFetchPartition;
  }

  method DecodeFetchPartitions(r: Reader) returns (xs: Option<seq<FetchPartition>>, ghost raw: seq<FetchPartition>)
    requires r.Valid()
    modifies r
    ensures r.Valid()
    ensures xs.None? ==> Parse(Array(FETCH_PARTITION), r.bytes, old(r.pos)).None?
    ensures xs.Some? ==>
              && Parse(Array(FETCH_PARTITION), r.bytes, old(r.pos)) == Some((ArrayV(FetchPartitionsV(raw)), r.pos))
              && xs.value == KnownFetchPartitions(raw)
  {
    ghost var b, start := r.bytes, r.pos;
    hide *;
    raw := [];
    ArrayParses(FETCH_PARTITION, b, start);
    ManyParsesNone(FETCH_PARTITION, b, start + 4);
    var length := r.ReadArrayLen();
    if length.None? {
      return None, raw;
    }
    var list: seq<FetchPartition> := [];
    ghost var none: FetchPartition := *;
    FetchPartitionsGrow([], none);
    for i := 0 to length.value
      invariant r.Valid() && ParseMany(FETCH_PARTITION, b, start + 4, i) == Some((FetchPartitionsV(raw), r.pos))
      invariant list == KnownFetchPartitions(raw)
    {
      NextItem(FETCH_PARTITION, b, start, length.value, i, FetchPartitionsV(raw), r.pos);
      var x, one := DecodeFetchPartition(r);
      if x.None? {
        return None, raw;
      }
      FetchPartitionsGrow(raw, one);
      raw := raw + [one];
      list := list + [x.value];
    }
    xs := Some(list);
  }

  lemma FetchTopicLayout()
    ensures FETCH_TOPIC == Struct(FETCH_TOPIC_FIELDS) && |FETCH_TOPIC_FIELDS| == 2
    ensures FETCH_TOPIC_FIELDS[0] == NullableString
    ensures FETCH_TOPIC_FIELDS[1] == Array(FETCH_PARTITION)
  {}

  lemma FetchTopicBuilt(x: FetchTopic, parts: seq<Value>)
    requires parts == [] + [BytesV(x.name)] + [ArrayV(FetchPartitionsV(x.partitions))]
    ensures StructV(parts) == FetchTopicV(x)
  {}

  lemma FetchTopicKnown(x: FetchTopic)
    ensures KnownFetchTopic(x) == FetchTopic(x.name, KnownFetchPartitions(x.partitions))
  {}

  method DecodeFetchTopic(r: Reader) returns (x: Option<FetchTopic>, ghost raw: FetchTopic)
    requires r.Valid()
    modifies r
    ensures r.Valid()
    ensures x.None? ==> Parse(FETCH_TOPIC, r.bytes, old(r.pos)).None?
    ensures x.Some? ==> Parse(FETCH_TOPIC, r.bytes, old(r.pos)) == Some((FetchTopicV(raw), r.pos)) && x.value == KnownFetchTopic(raw)
  {
    ghost var b, start := r.bytes, r.pos;
    FetchTopicLayout();
    StartStruct(FETCH_TOPIC_FIELDS, b, start);
    hide *;
    raw := *;
    ghost var parts: seq<Value> := [];
    NextField(FETCH_TOPIC_FIELDS, b, start, parts, r.pos);
    var name := r.ReadNullableString();
    if name.None? {
      return None, raw;
    }
    parts := parts + [BytesV(name.value)];
    NextField(FETCH_TOPIC_FIELDS, b, start, parts, r.pos);
    var partitions, rawPartitions := DecodeFetchPartitions(r);
    if partitions.None? {
      return None, raw;
    }
    parts := parts + [ArrayV(FetchPartitionsV(rawPartitions))];
    EndStruct(FETCH_TOPIC_FIELDS, b, start, parts, r.pos);
    raw := FetchTopic(name.value, rawPartitions);
    FetchTopicBuilt(raw, parts);
    FetchTopicKnown(raw);
    x := Some(FetchTopic(name.value, partitions.value));
  }

  lemma FetchTopicsGrow(xs: seq<FetchTopic>, x: FetchTopic)
    ensures FetchTopicsV([]) == [] && KnownFetchTopics([]) == []
    ensures FetchTopicsV(xs + [x]) == FetchTopicsV(xs) + [FetchTopicV(x)]
    ensures KnownFetchTopics(xs + [x]) == KnownFetchTopics(xs) + [KnownFetchTopic(x)]
  {
    hide FetchTopicV, KnownFetchTopic;
  }

  method DecodeFetchTopics(r: Reader) returns (xs: Option<seq<FetchTopic>>, ghost raw: seq<FetchTopic>)
    requires r.Valid()
    modifies r
    ensures r.Valid()
    ensures xs.None? ==> Parse(Array(FETCH_TOPIC), r.bytes, old(r.pos)).None?
    ensures xs.Some? ==>
              && Parse(Array(FETCH_TOPIC), r.bytes, old(r.pos)) == Some((ArrayV(FetchTopicsV(raw)), r.pos))
              && xs.value == KnownFetchTopics(raw)
  {
    ghost var b, start := r.bytes, r.pos;
    hide *;
    raw := [];
    ArrayParses(FETCH_TOPIC, b, start);
    ManyParsesNone(FETCH_TOPIC, b, start + 4);
    var length := r.ReadArrayLen();
    if length.None? {
      return None, raw;
    }
    var list: seq<FetchTopic> := [];
    ghost var none: FetchTopic := *;
    FetchTopicsGrow([], none);
    for i := 0 to length.value
      invariant r.Valid() && ParseMany(FETCH_TOPIC, b, start + 4, i) == Some((FetchTopicsV(raw), r.pos))
      invariant list == KnownFetchTopics(raw)
    {
      NextItem(FETCH_TOPIC, b, start, length.value, i, FetchTopicsV(raw), r.pos);
      var x, one := DecodeFetchTopic(r);
      if x.None? {
        return None, raw;
      }
      FetchTopicsGrow(raw, one);
      raw := raw + [one];
      list := list + [x.value];
    }
    xs := Some(list);
  }

  lemma FetchLayout()
    ensures FETCH == Struct(FETCH_FIELDS) && |FETCH_FIELDS| == 2
    ensures FETCH_FIELDS[0] == Int(4)
    ensures FETCH_FIELDS[1] == Array(FETCH_TOPIC)
  {}

  lemma FetchBuilt(x: Fetch, parts: seq<Value>)
    requires parts == [] + [IntV(x.sessionId)] + [ArrayV(FetchTopicsV(x.topics))]
    ensures StructV(parts) == FetchV(x)
  {}

  lemma FetchKnown(x: Fetch)
    ensures KnownFetch(x) == Fetch(x.sessionId, KnownFetchTopics(x.topics))
  {}

  method DecodeFetch(r: Reader) returns (x: Option<Fetch>, ghost raw: Fetch)
    requires r.Valid()
    modifies r
    ensures r.Valid()
    ensures x.None? ==> Parse(FETCH, r.bytes, old(r.pos)).None?
    ensures x.Some? ==> Parse(FETCH, r.bytes, old(r.pos)) == Some((FetchV(raw), r.pos)) && x.value == KnownFetch(raw)
  {
    ghost var b, start := r.bytes, r.pos;
    FetchLayout();
    StartStruct(FETCH_FIELDS, b, start);
    hide *;
    raw := *;
    ghost var parts: seq<Value> := [];
    NextField(FETCH_FIELDS, b, start, parts, r.pos);
    var sessionId := r.ReadInt32();
    if sessionId.None? {
      return None, raw;
    }
    parts := parts + [IntV(sessionId.value)];
    NextField(FETCH_FIELDS, b, start, parts, r.pos);
    var topics, rawTopics := DecodeFetchTopics(r);
    if topics.None? {
      return None, raw;
    }
    parts := parts + [ArrayV(FetchTopicsV(rawTopics))];
    EndStruct(FETCH_FIELDS, b, start, parts, r.pos);
    raw := Fetch(sessionId.value, rawTopics);
    FetchBuilt(raw, parts);
    FetchKnown(raw);
    x := Some(Fetch(sessionId.value, topics.value));
  }
}
