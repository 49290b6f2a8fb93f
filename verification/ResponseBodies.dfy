/** What a whole Metadata or Fetch body decodes to, and the laws of these bodies: decoding inverts
    encoding, and no accepted body is a proper prefix of another. */
module ResponseBodies {
  import opened Wrappers
  import opened Wire
  import opened Binary
  import opened Responses

  /** `data` is exactly one value of format `f`. */
  predicate Whole(f: Format, data: Bytes, v: Value) {
    Parse(f, data, 0) == Some((v, |data|))
  }

  /** No accepted body is a proper prefix of another, whatever the format: a body with bytes cut
      off or added is not accepted. */
  lemma WholeIsPrefixFree(f: Format, data: Bytes, rest: Bytes, v: Value, w: Value)
    requires rest != [] && Whole(f, data, v)
    ensures !Whole(f, data + rest, w)
  {
    hide Parse;
    assert Same(data, data + rest, 0, |data|);
    ParseIsLocal(f, data, data + rest, 0);
  }

  lemma WholeSerialized(f: Format, v: Value)
    requires Fits(f, v)
    ensures Whole(f, Serialize(f, v), v)
  {
    hide Parse, Serialize, Fits;
    AtStart(Serialize(f, v));
    ParseSerialized(f, v, Serialize(f, v), 0);
  }

  lemma WholeOnce(f: Format, data: Bytes, v: Value, w: Value)
    requires Whole(f, data, v) && Whole(f, data, w)
    ensures v == w
  {}

  // ------------------------------------------------ a value determines its message

  lemma Int32sInjective(xs: seq<Int32>, ys: seq<Int32>)
    requires Int32sV(xs) == Int32sV(ys)
    ensures xs == ys
  {
    assert |Int32sV(xs).items| == |Int32sV(ys).items|;
    forall i | 0 <= i < |xs|
      ensures xs[i] == ys[i]
    {
      assert Int32sV(xs).items[i] == IntV(xs[i]) && Int32sV(ys).items[i] == IntV(ys[i]);
    }
  }

  lemma BrokerInjective(x: Broker, y: Broker)
    requires BrokerV(x) == BrokerV(y)
    ensures x == y
  {
    var xs, ys := BrokerParts(x), BrokerParts(y);
    assert xs[0] == ys[0];
    assert xs[1] == ys[1];
    assert xs[2] == ys[2];
    assert xs[3] == ys[3];
  }

  lemma BrokersInjective(xs: seq<Broker>, ys: seq<Broker>)
    requires BrokersV(xs) == BrokersV(ys)
    ensures xs == ys
  {
    assert |xs| == |BrokersV(xs)| == |BrokersV(ys)| == |ys|;
    forall i | 0 <= i < |xs|
      ensures xs[i] == ys[i]
    {
      assert BrokersV(xs)[i] == BrokerV(xs[i]) && BrokersV(ys)[i] == BrokerV(ys[i]);
      BrokerInjective(xs[i], ys[i]);
    }
  }

  lemma PartitionInjective(x: Partition, y: Partition)
    requires PartitionV(x) == PartitionV(y)
    ensures x == y
  {
    var xs, ys := PartitionParts(x), PartitionParts(y);
    assert xs[0] == ys[0];
    assert xs[1] == ys[1];
    assert xs[2] == ys[2];
    assert xs[3] == ys[3];
    assert xs[4] == ys[4];
    assert xs[5] == ys[5];
    assert xs[6] == ys[6];
    hide Int32sV;
    Int32sInjective(x.replicaNodes, y.replicaNodes);
    Int32sInjective(x.isrNodes, y.isrNodes);
    Int32sInjective(x.offlineReplicaNodes, y.offlineReplicaNodes);
  }

  lemma PartitionsInjective(xs: seq<Partition>, ys: seq<Partition>)
    requires PartitionsV(xs) == PartitionsV(ys)
    ensures xs == ys
  {
    assert |xs| == |PartitionsV(xs)| == |PartitionsV(ys)| == |ys|;
    forall i | 0 <= i < |xs|
      ensures xs[i] == ys[i]
    {
      assert PartitionsV(xs)[i] == PartitionV(xs[i]) && PartitionsV(ys)[i] == PartitionV(ys[i]);
      PartitionInjective(xs[i], ys[i]);
    }
  }

  lemma TopicInjective(x: Topic, y: Topic)
    requires TopicV(x) == TopicV(y)
    ensures x == y
  {
    var xs, ys := TopicParts(x), TopicParts(y);
    assert xs[0] == ys[0];
    assert xs[1] == ys[1];
    assert xs[2] == ys[2];
    assert xs[3] == ys[3];
    assert xs[4] == ys[4];
    hide PartitionsV;
    PartitionsInjective(x.partitions, y.partitions);
  }

  lemma TopicsInjective(xs: seq<Topic>, ys: seq<Topic>)
    requires TopicsV(xs) == TopicsV(ys)
    ensures xs == ys
  {
    assert |xs| == |TopicsV(xs)| == |TopicsV(ys)| == |ys|;
    forall i | 0 <= i < |xs|
      ensures xs[i] == ys[i]
    {
      assert TopicsV(xs)[i] == TopicV(xs[i]) && TopicsV(ys)[i] == TopicV(ys[i]);
      TopicInjective(xs[i], ys[i]);
    }
  }

  lemma MetadataInjective(x: Metadata, y: Metadata)
    requires MetadataV(x) == MetadataV(y)
    ensures x == y
  {
    var xs, ys := MetadataParts(x), MetadataParts(y);
    assert xs[0] == ys[0];
    assert xs[1] == ys[1];
    assert xs[2] == ys[2];
    assert xs[3] == ys[3];
    assert xs[4] == ys[4];
    hide BrokersV, TopicsV;
    BrokersInjective(x.brokers, y.brokers);
    TopicsInjective(x.topics, y.topics);
  }

  lemma AbortedInjective(x: Aborted, y: Aborted)
    requires AbortedV(x) == AbortedV(y)
    ensures x == y
  {
    var xs, ys := AbortedParts(x), AbortedParts(y);
    assert xs[0] == ys[0];
    assert xs[1] == ys[1];
  }

  lemma AbortedTransactionsInjective(xs: seq<Aborted>, ys: seq<Aborted>)
    requires AbortedTransactionsV(xs) == AbortedTransactionsV(ys)
    ensures xs == ys
  {
    assert |xs| == |AbortedTransactionsV(xs)| == |AbortedTransactionsV(ys)| == |ys|;
    forall i | 0 <= i < |xs|
      ensures xs[i] == ys[i]
    {
      assert AbortedTransactionsV(xs)[i] == AbortedV(xs[i]) && AbortedTransactionsV(ys)[i] == AbortedV(ys[i]);
      AbortedInjective(xs[i], ys[i]);
    }
  }

  lemma FetchPartitionInjective(x: FetchPartition, y: FetchPartition)
    requires FetchPartitionV(x) == FetchPartitionV(y)
    ensures x == y
  {
    var xs, ys := FetchPartitionParts(x), FetchPartitionParts(y);
    assert xs[0] == ys[0];
    assert xs[1] == ys[1];
    assert xs[2] == ys[2];
    assert xs[3] == ys[3];
    assert xs[4] == ys[4];
    assert xs[5] == ys[5];
    assert xs[6] == ys[6];
    hide AbortedTransactionsV;
    AbortedTransactionsInjective(x.aborted, y.aborted);
  }

  lemma FetchPartitionsInjective(xs: seq<FetchPartition>, ys: seq<FetchPartition>)
    requires FetchPartitionsV(xs) == FetchPartitionsV(ys)
    ensures xs == ys
  {
    assert |xs| == |FetchPartitionsV(xs)| == |FetchPartitionsV(ys)| == |ys|;
    forall i | 0 <= i < |xs|
      ensures xs[i] == ys[i]
    {
      assert FetchPartitionsV(xs)[i] == FetchPartitionV(xs[i]) && FetchPartitionsV(ys)[i] == FetchPartitionV(ys[i]);
      FetchPartitionInjective(xs[i], ys[i]);
    }
  }

  lemma FetchTopicInjective(x: FetchTopic, y: FetchTopic)
    requires FetchTopicV(x) == FetchTopicV(y)
    ensures x == y
  {
    var xs, ys := FetchTopicParts(x), FetchTopicParts(y);
    assert xs[0] == ys[0];
    assert xs[1] == ys[1];
    hide FetchPartitionsV;
    FetchPartitionsInjective(x.partitions, y.partitions);
  }

  lemma FetchTopicsInjective(xs: seq<FetchTopic>, ys: seq<FetchTopic>)
    requires FetchTopicsV(xs) == FetchTopicsV(ys)
    ensures xs == ys
  {
    assert |xs| == |FetchTopicsV(xs)| == |FetchTopicsV(ys)| == |ys|;
    forall i | 0 <= i < |xs|
      ensures xs[i] == ys[i]
    {
      assert FetchTopicsV(xs)[i] == FetchTopicV(xs[i]) && FetchTopicsV(ys)[i] == FetchTopicV(ys[i]);
      FetchTopicInjective(xs[i], ys[i]);
    }
  }

  lemma FetchInjective(x: Fetch, y: Fetch)
    requires FetchV(x) == FetchV(y)
    ensures x == y
  {
    var xs, ys := FetchParts(x), FetchParts(y);
    assert xs[0] == ys[0];
    assert xs[1] == ys[1];
    hide FetchTopicsV;
    FetchTopicsInjective(x.topics, y.topics);
  }

  // ----------------------------------------------------------- Metadata bodies

  /** What a Metadata body decodes to. */
  ghost function MetadataBody(data: Bytes): Option<Metadata> {
    if exists raw :: Whole(METADATA, data, MetadataV(raw)) then
      var raw :| Whole(METADATA, data, MetadataV(raw));
      Some(KnownMetadata(raw))
    else None
  }

  /** The decoder computes it. */
  method DecodeMetadataBody(data: Bytes) returns (x: Option<Metadata>)
    ensures x == MetadataBody(data)
  {
    hide Parse, MetadataV, KnownMetadata;
    var reader := new Reader(data);
    ghost var raw;
    x, raw := DecodeMetadata(reader);
    if x.Some? && reader.Remaining() != 0 {
      x := None;  // trailing bytes
    }
    if y, z :| Whole(METADATA, data, MetadataV(y)) && Whole(METADATA, data, MetadataV(z)) && y != z {
      MetadataInjective(y, z);
    }
  }

  /** Decoding inverts encoding, up to unknown error codes. */
  lemma MetadataRoundTrip(x: Metadata)
    requires Fits(METADATA, MetadataV(x))
    ensures MetadataBody(Serialize(METADATA, MetadataV(x))) == Some(KnownMetadata(x))
  {
    hide Parse, Serialize, Fits, MetadataV, KnownMetadata;
    WholeSerialized(METADATA, MetadataV(x));
    var data := Serialize(METADATA, MetadataV(x));
    var raw :| Whole(METADATA, data, MetadataV(raw)) && MetadataBody(data) == Some(KnownMetadata(raw));
    WholeOnce(METADATA, data, MetadataV(raw), MetadataV(x));
    MetadataInjective(raw, x);
  }

  /** Every strict prefix and every strict extension of an accepted body is rejected. */
  lemma MetadataPrefixFree(data: Bytes, rest: Bytes)
    requires rest != []
    ensures MetadataBody(data).None? || MetadataBody(data + rest).None?
  {
    hide Whole, MetadataV, KnownMetadata;
    if MetadataBody(data).Some? && MetadataBody(data + rest).Some? {
      var x :| Whole(METADATA, data, MetadataV(x));
      var y :| Whole(METADATA, data + rest, MetadataV(y));
      WholeIsPrefixFree(METADATA, data, rest, MetadataV(x), MetadataV(y));
    }
  }

  // ----------------------------------------------------------- Fetch bodies

  /** What a Fetch body decodes to. */
  ghost function FetchBody(data: Bytes): Option<Fetch> {
    if exists raw :: Whole(FETCH, data, FetchV(raw)) then
      var raw :| Whole(FETCH, data, FetchV(raw));
      Some(KnownFetch(raw))
    else None
  }

  /** The decoder computes it. */
  method DecodeFetchBody(data: Bytes) returns (x: Option<Fetch>)
    ensures x == FetchBody(data)
  {
    hide Parse, FetchV, KnownFetch;
    var reader := new Reader(data);
    ghost var raw;
    x, raw := DecodeFetch(reader);
    if x.Some? && reader.Remaining() != 0 {
      x := None;  // trailing bytes
    }
    if y, z :| Whole(FETCH, data, FetchV(y)) && Whole(FETCH, data, FetchV(z)) && y != z {
      FetchInjective(y, z);
    }
  }

  /** Decoding inverts encoding, up to unknown error codes. */
  lemma FetchRoundTrip(x: Fetch)
    requires Fits(FETCH, FetchV(x))
    ensures FetchBody(Serialize(FETCH, FetchV(x))) == Some(KnownFetch(x))
  {
    hide Parse, Serialize, Fits, FetchV, KnownFetch;
    WholeSerialized(FETCH, FetchV(x));
    var data := Serialize(FETCH, FetchV(x));
    var raw :| Whole(FETCH, data, FetchV(raw)) && FetchBody(data) == Some(KnownFetch(raw));
    WholeOnce(FETCH, data, FetchV(raw), FetchV(x));
    FetchInjective(raw, x);
  }

  /** Every strict prefix and every strict extension of an accepted body is rejected. */
  lemma FetchPrefixFree(data: Bytes, rest: Bytes)
    requires rest != []
    ensures FetchBody(data).None? || FetchBody(data + rest).None?
  {
    hide Whole, FetchV, KnownFetch;
    if FetchBody(data).Some? && FetchBody(data + rest).Some? {
      var x :| Whole(FETCH, data, FetchV(x));
      var y :| Whole(FETCH, data + rest, FetchV(y));
      WholeIsPrefixFree(FETCH, data, rest, FetchV(x), FetchV(y));
    }
  }

  // ------------------------------------------------------------------ error codes

  predicate KnownCode(code: Int16) { 0 <= code <= 27 }

  /** A code is read as it is if it is known, and as that of an unknown server error otherwise. */
  lemma CodeIsRead(code: Int16)
    ensures ErrorCodeFromCode(code) == (if KnownCode(code) then code else 1)
    ensures KnownCode(ErrorCodeFromCode(code))
  {}

  predicate KnownTopicCodes(t: Topic) {
    KnownCode(t.errorCode) && forall i :: 0 <= i < |t.partitions| ==> KnownCode(t.partitions[i].errorCode)
  }

  /** A metadata message comes back unchanged exactly when all its error codes are known. */
  lemma MetadataUnchanged(m: Metadata)
    ensures KnownMetadata(m) == m <==> forall i :: 0 <= i < |m.topics| ==> KnownTopicCodes(m.topics[i])
  {
    forall i | 0 <= i < |m.topics|
      ensures KnownTopic(m.topics[i]) == m.topics[i] <==> KnownTopicCodes(m.topics[i])
    {
      TopicUnchanged(m.topics[i]);
    }
    hide KnownTopic, KnownTopicCodes;
    assert KnownTopics(m.topics) == m.topics <==>
           forall i :: 0 <= i < |m.topics| ==> KnownTopics(m.topics)[i] == m.topics[i];
  }

  /** The same for a fetched message. */
  lemma FetchUnchanged(x: Fetch)
    ensures KnownFetch(x) == x <==> forall i :: 0 <= i < |x.topics| ==> KnownFetchCodes(x.topics[i])
  {
    forall i | 0 <= i < |x.topics|
      ensures KnownFetchTopic(x.topics[i]) == x.topics[i] <==> KnownFetchCodes(x.topics[i])
    {
      FetchTopicUnchanged(x.topics[i]);
    }
    hide KnownFetchTopic, KnownFetchCodes;
    assert KnownFetchTopics(x.topics) == x.topics <==>
           forall i :: 0 <= i < |x.topics| ==> KnownFetchTopics(x.topics)[i] == x.topics[i];
  }

  predicate KnownFetchCodes(t: FetchTopic) {
    forall i :: 0 <= i < |t.partitions| ==> KnownCode(t.partitions[i].errorCode)
  }

  lemma FetchTopicUnchanged(t: FetchTopic)
    ensures KnownFetchTopic(t) == t <==> KnownFetchCodes(t)
  {
    assert KnownFetchPartitions(t.partitions) == t.partitions <==>
           forall i :: 0 <= i < |t.partitions| ==> KnownFetchPartitions(t.partitions)[i] == t.partitions[i];
  }

  lemma TopicUnchanged(t: Topic)
    ensures KnownTopic(t) == t <==> KnownTopicCodes(t)
  {
    assert KnownPartitions(t.partitions) == t.partitions <==>
           forall i :: 0 <= i < |t.partitions| ==> KnownPartitions(t.partitions)[i] == t.partitions[i];
  }
}
