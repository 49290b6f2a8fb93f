/** Contiguous record batches: the set codec, its tiling of the input, and the one input family
    it does not survive (protocol/codec/record_batch.go, lines 150-183). */
module RecordBatchSets {
  import opened Wrappers
  import opened Wire
  import opened RecordBatches
  import opened Crc32c

  /** `DecodeRecordBatchSet` returns batches, returns an error, or panics on a slice whose upper
      bound lies below its lower one. */
  datatype SetOutcome = Batches(list: seq<RecordBatch>) | Rejected | Panics

  function Prepend(front: seq<RecordBatch>, rest: SetOutcome): SetOutcome {
    if rest.Batches? then Batches(front + rest.list) else rest
  }

  function LengthField(d: Bytes): (n: Int32)
    requires |d| >= PREFIX_BYTES
  {
    PowValues();
    SignedReverse(d[4..8]);
    Field(d, 4, 4)
  }

  /** `int32(8) + batchLength`, wrapping as the source's int32 sum does. */
  function TotalLength(d: Bytes): Int32
    requires |d| >= PREFIX_BYTES
  {
    Cast32(PREFIX_BYTES + LengthField(d))
  }

  function ParseSet(d: Bytes): SetOutcome
    decreases |d|
  {
    if d == [] then Batches([])
    else if |d| < PREFIX_BYTES then Rejected
    else
      var total := TotalLength(d);
      if LengthField(d) < 0 || |d| < total then Rejected
      else if total < 0 then Panics
      else
        var batch := ParseBatch(d[..total]);
        if batch.None? then Rejected
        else Prepend([batch.value], ParseSet(d[total..]))
  }

  // ---------------------------------------------------------------------- tiling

  /** A byte string that is one batch, as it can stand in a set. */
  predicate Segment(d: Bytes) {
    |d| <= MAX_INT32 && ParseBatch(d).Some?
  }

  lemma SegmentLength(seg: Bytes, rest: Bytes)
    requires Segment(seg)
    ensures |seg| >= CRC_OFFSET
    ensures Field(seg, 4, 4) == |seg| - PREFIX_BYTES
    ensures LengthField(seg + rest) == |seg| - PREFIX_BYTES && TotalLength(seg + rest) == |seg|
  {
    hide ParseBatch, Signed;
    AcceptedHeader(seg);
    assert (seg + rest)[4..8] == seg[4..8];
    assert Field(seg + rest, 4, 4) == Field(seg, 4, 4);
  }

  lemma AcceptedHeader(seg: Bytes)
    requires ParseBatch(seg).Some?
    ensures |seg| >= CRC_OFFSET
    ensures Field(seg, 4, 4) == Cast32(|seg| - PREFIX_BYTES)
    ensures ParseBatch(seg).value.batchLength == Field(seg, 4, 4)
  {
    hide Field, Cast32, Parse, ChecksumField;
  }

  /** A set that starts with a batch. */
  lemma SegmentFirst(seg: Bytes, rest: Bytes)
    requires Segment(seg)
    ensures ParseSet(seg + rest) == Prepend([ParseBatch(seg).value], ParseSet(rest))
  {
    hide ParseBatch, LengthField, TotalLength;
    SegmentLength(seg, rest);
    assert (seg + rest)[..|seg|] == seg && (seg + rest)[|seg|..] == rest;
  }

  /** The first batch of an accepted, non-empty set. */
  lemma FirstSegment(d: Bytes)
    requires d != [] && ParseSet(d).Batches?
    ensures |d| >= PREFIX_BYTES && CRC_OFFSET <= TotalLength(d) <= |d|
    ensures var n := TotalLength(d);
            Segment(d[..n]) && ParseSet(d) == Prepend([ParseBatch(d[..n]).value], ParseSet(d[n..]))
  {
    hide ParseBatch, TotalLength, LengthField;
    var n := TotalLength(d);
    AcceptedHeader(d[..n]);
  }

  function Flatten(segs: seq<Bytes>): Bytes {
    if segs == [] then [] else segs[0] + Flatten(segs[1..])
  }

  ghost predicate Tiles(segs: seq<Bytes>, d: Bytes, list: seq<RecordBatch>) {
    && Flatten(segs) == d
    && |segs| == |list|
    && forall i :: 0 <= i < |segs| ==> Segment(segs[i]) && ParseBatch(segs[i]).value == list[i]
  }

  /** A set is accepted exactly when it is cut, without gap or remainder, into accepted
      batches; and it yields those batches. */
  lemma Tiling(d: Bytes, list: seq<RecordBatch>)
    ensures ParseSet(d) == Batches(list) <==> exists segs :: Tiles(segs, d, list)
  {
    if ParseSet(d) == Batches(list) {
      var segs := Cut(d);
      assert Tiles(segs, d, list);
    }
    if segs :| Tiles(segs, d, list) {
      Joins(segs, d, list);
    }
  }

  lemma {:induction false} Cut(d: Bytes) returns (segs: seq<Bytes>)
    requires ParseSet(d).Batches?
    ensures Tiles(segs, d, ParseSet(d).list)
    decreases |d|
  {
    hide ParseSet, ParseBatch, TotalLength;
    if d == [] {
      EmptySet();
      segs := [];
    } else {
      FirstSegment(d);
      var n := TotalLength(d);
      var rest := Cut(d[n..]);
      segs := [d[..n]] + rest;
      assert segs[1..] == rest && d == d[..n] + d[n..];
    }
  }

  lemma EmptySet()
    ensures ParseSet([]) == Batches([])
  {}

  lemma {:induction false} Joins(segs: seq<Bytes>, d: Bytes, list: seq<RecordBatch>)
    requires Tiles(segs, d, list)
    ensures ParseSet(d) == Batches(list)
    decreases |segs|
  {
    hide ParseSet, ParseBatch, Segment;
    if segs == [] {
      EmptySet();
    } else {
      Joins(segs[1..], Flatten(segs[1..]), list[1..]);
      SegmentFirst(segs[0], Flatten(segs[1..]));
      assert [list[0]] + list[1..] == list;
    }
  }

  /** Decoding distributes over concatenation, whatever follows the accepted part. */
  lemma {:induction false} ConcatenatedSets(d: Bytes, e: Bytes)
    requires ParseSet(d).Batches?
    ensures ParseSet(d + e) == Prepend(ParseSet(d).list, ParseSet(e))
    decreases |d|
  {
    hide ParseSet, ParseBatch, TotalLength, Segment;
    if d == [] {
      EmptySet();
      assert d + e == e;
    } else {
      FirstSegment(d);
      var n := TotalLength(d);
      ConcatenatedSets(d[n..], e);
      SegmentFirst(d[..n], d[n..] + e);
      assert d + e == d[..n] + (d[n..] + e);
    }
  }

  /** `n` is the total length of the first `k` batches of the list, for some `k`. */
  predicate OnBoundary(list: seq<RecordBatch>, n: nat) {
    n == 0
    || (list != []
        && 0 <= PREFIX_BYTES + list[0].batchLength <= n
        && OnBoundary(list[1..], n - (PREFIX_BYTES + list[0].batchLength)))
  }

  lemma BatchLengthIsLength(seg: Bytes)
    requires Segment(seg)
    ensures |seg| == PREFIX_BYTES + ParseBatch(seg).value.batchLength >= CRC_OFFSET
  {
    AcceptedHeader(seg);
    hide ParseBatch, Field;
  }

  /** A prefix of an accepted set is accepted if and only if it ends on a batch boundary. */
  lemma {:induction false} PrefixAccepted(d: Bytes, n: nat)
    requires ParseSet(d).Batches? && n <= |d|
    ensures ParseSet(d[..n]).Batches? <==> OnBoundary(ParseSet(d).list, n)
    decreases |d|
  {
    hide ParseSet, ParseBatch, TotalLength, Segment;
    if n == 0 {
      EmptySet();
      assert d[..n] == [];
    } else {
      FirstSegment(d);
      var m := TotalLength(d);
      BatchLengthIsLength(d[..m]);
      assert ParseSet(d).list[1..] == ParseSet(d[m..]).list;
      if n < m {
        ShortSet(d, n);
      } else {
        PrefixAccepted(d[m..], n - m);
        assert d[..n] == d[..m] + d[m..][..n - m];
        SegmentFirst(d[..m], d[m..][..n - m]);
      }
    }
  }

  lemma ShortSet(d: Bytes, n: nat)
    requires |d| >= PREFIX_BYTES && 0 < n <= |d| && n < TotalLength(d)
    ensures !ParseSet(d[..n]).Batches?
  {
    hide ParseBatch, Signed, Cast32;
    if n >= PREFIX_BYTES {
      assert d[..n][4..8] == d[4..8];
    }
  }

  // ---------------------------------------------------------------------- panics

  /** A length field so large that adding the 8 prefix bytes leaves the int32 range. */
  predicate Overflows(d: Bytes) {
    |d| >= PREFIX_BYTES && LengthField(d) > MAX_INT32 - PREFIX_BYTES
  }

  /** The decoder panics exactly on the inputs in which accepted batches are followed by a
      length field above 2^31 - 9. */
  lemma PanicsExactly(d: Bytes)
    ensures ParseSet(d).Panics? <==>
              exists n: nat :: n <= |d| && ParseSet(d[..n]).Batches? && Overflows(d[n..])
  {
    hide ParseSet, Overflows;
    if n: nat :| n <= |d| && ParseSet(d[..n]).Batches? && Overflows(d[n..]) {
      assert d == d[..n] + d[n..];
      ConcatenatedSets(d[..n], d[n..]);
      OverflowPanics(d[n..]);
    }
    if ParseSet(d).Panics? {
      var n := PanicPosition(d);
    }
  }

  lemma OverflowPanics(d: Bytes)
    requires Overflows(d)
    ensures ParseSet(d).Panics?
  {
    hide LengthField, ParseBatch;
    assert TotalLength(d) < 0;
  }

  lemma {:induction false} PanicPosition(d: Bytes) returns (n: nat)
    requires ParseSet(d).Panics?
    ensures n <= |d| && ParseSet(d[..n]).Batches? && Overflows(d[n..])
    decreases |d|
  {
    hide ParseBatch, LengthField;
    var total := TotalLength(d);
    if total < 0 {
      assert d[..0] == [] && d[0..] == d;
      n := 0;
    } else {
      var m := PanicPosition(d[total..]);
      n := total + m;
      assert d[..n] == d[..total] + d[total..][..m] && d[n..] == d[total..][m..];
      AcceptedHeader(d[..total]);
      SegmentFirst(d[..total], d[total..][..m]);
    }
  }

  /** Eight bytes suffice. */
  lemma PanicExample()
    ensures ParseSet([0, 0, 0, 0, 0x7F, 0xFF, 0xFF, 0xFF]).Panics?
  {
    var d: Bytes := [0, 0, 0, 0, 0x7F, 0xFF, 0xFF, 0xFF];
    var field := d[4..8];
    assert field == [0x7F, 0xFF, 0xFF, 0xFF];
    assert field[..3][..2][..1] == [0x7F] && field[..3][..2] == [0x7F, 0xFF] && field[..3] == [0x7F, 0xFF, 0xFF];
    assert Unsigned([0x7F]) == 0x7F by { assert [0x7F][..0] == []; }
    assert Unsigned([0x7F, 0xFF]) == 0x7FFF;
    assert Unsigned([0x7F, 0xFF, 0xFF]) == 0x7F_FFFF;
    PowValues();
    assert LengthField(d) == MAX_INT32;
  }

  // ----------------------------------------------------------------- round trips

  /** What `EncodeRecordBatchSet` writes. */
  function SetBytes(list: seq<RecordBatch>): Bytes {
    if list == [] then [] else BatchBytes(list[0]) + SetBytes(list[1..])
  }

  lemma {:induction false} SetBytesGrow(list: seq<RecordBatch>, b: RecordBatch)
    ensures SetBytes(list + [b]) == SetBytes(list) + BatchBytes(b)
  {
    hide BatchBytes;
    if list == [] {
      assert (list + [b])[1..] == [];
    } else {
      assert (list + [b])[1..] == list[1..] + [b];
      SetBytesGrow(list[1..], b);
    }
  }

  function CompletedAll(list: seq<RecordBatch>): seq<RecordBatch>
    requires forall i :: 0 <= i < |list| ==> Encodable(list[i])
  {
    seq(|list|, i requires 0 <= i < |list| && Encodable(list[i]) => Completed(list[i]))
  }

  /** Decoding an encoded set gives the batches back. */
  lemma {:induction false} SetRoundTrip(list: seq<RecordBatch>)
    requires forall i :: 0 <= i < |list| ==> Encodable(list[i])
    ensures ParseSet(SetBytes(list)) == Batches(CompletedAll(list))
    decreases |list|
  {
    hide ParseSet, ParseBatch, BatchBytes, Completed, Encodable, Segment;
    if list == [] {
      EmptySet();
    } else {
      BatchRoundTrip(list[0]);
      SetRoundTrip(list[1..]);
      EncodedSegment(list[0]);
      SegmentFirst(BatchBytes(list[0]), SetBytes(list[1..]));
      assert CompletedAll(list) == [Completed(list[0])] + CompletedAll(list[1..]);
    }
  }

  lemma EncodedSegment(b: RecordBatch)
    requires Encodable(b)
    ensures Segment(BatchBytes(b))
  {
    BatchRoundTrip(b);
  }

  /** Every batch of the set has canonical null lengths and a non-zero magic byte. */
  predicate CanonicalSet(d: Bytes)
    requires ParseSet(d).Batches?
    decreases |d|
  {
    d == []
    || (FirstSegment(d);
        var n := TotalLength(d);
        Canonical(PAYLOAD, d[..n], CRC_OFFSET) && Field(d, 12, 1) != 0 && CanonicalSet(d[n..]))
  }

  /** Re-encoding what was decoded gives back the identical bytes if and only if the input is
      canonical. */
  lemma {:induction false} SetReverse(d: Bytes)
    requires ParseSet(d).Batches?
    ensures |SetBytes(ParseSet(d).list)| == |d|
    ensures SetBytes(ParseSet(d).list) == d <==> CanonicalSet(d)
    decreases |d|
  {
    CanonicalUnfolds(d);
    hide ParseSet, ParseBatch, BatchBytes, SetBytes, Canonical, CanonicalSet, Field, TotalLength, Cast32;
    if d == [] {
      EmptySet();
      NoBytes();
    } else {
      FirstSegment(d);
      var n := TotalLength(d);
      var seg, rest := d[..n], d[n..];
      var b := ParseBatch(seg).value;
      BatchReverse(seg);
      FieldOfPrefix(d, n);
      SetReverse(rest);
      assert ParseSet(d).list == [b] + ParseSet(rest).list;
      var out := BatchBytes(b);
      SetBytesFirst(b, ParseSet(rest).list);
      assert d == seg + rest;
      EqualHalves(out, SetBytes(ParseSet(rest).list), seg, rest);
    }
  }

  lemma NoBytes()
    ensures SetBytes([]) == []
  {}

  lemma SetBytesFirst(b: RecordBatch, rest: seq<RecordBatch>)
    ensures SetBytes([b] + rest) == BatchBytes(b) + SetBytes(rest)
  {
    assert ([b] + rest)[1..] == rest;
  }

  lemma EqualHalves(a: Bytes, b: Bytes, c: Bytes, d: Bytes)
    requires |a| == |c|
    ensures a + b == c + d <==> a == c && b == d
  {
    if a + b == c + d {
      assert a == (a + b)[..|a|] == (c + d)[..|a|] == c;
      assert b == (a + b)[|a|..] == (c + d)[|a|..] == d;
    }
  }

  lemma CanonicalUnfolds(d: Bytes)
    requires ParseSet(d).Batches?
    ensures CanonicalSet([])
    ensures d != [] ==>
              (FirstSegment(d);
               var n := TotalLength(d);
               CanonicalSet(d) <==>
               Canonical(PAYLOAD, d[..n], CRC_OFFSET) && Field(d, 12, 1) != 0 && CanonicalSet(d[n..]))
  {
    EmptySet();
  }

  lemma FieldOfPrefix(d: Bytes, n: nat)
    requires CRC_OFFSET <= n <= |d|
    ensures Field(d[..n], 12, 1) == Field(d, 12, 1)
  {
    assert d[..n][12..13] == d[12..13];
  }
}
