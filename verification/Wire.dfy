/** The byte-level vocabulary of the protocol: big-endian integers, UTF-8, and a grammar
    of formats with one serializer and one parser.

    The source writes one hand-made decoder per message.  Here every message layout is a
    `Format` value; `Parse` and `Serialize` give it its meaning, and the laws below are
    proved once, for every format. */
module Wire {
  import opened Wrappers

  type Byte = x: int | 0 <= x < 256
  type Bytes = seq<Byte>

  /** A partition of a topic. */
  datatype Key = Key(topic: Bytes, partition: Int32)

  const MAX_INT16 := 0x7FFF
  const MAX_INT32 := 0x7FFF_FFFF

  // ---------------------------------------------------------------- integers

  /** 256 to the power `width`. */
  function Pow(width: nat): (m: nat)
    ensures m >= 1
    ensures width >= 1 ==> m % 2 == 0
  {
    if width == 0 then 1 else 256 * Pow(width - 1)
  }

  function Unsigned(bytes: Bytes): (n: nat)
    ensures n < Pow(|bytes|)
  {
    if bytes == [] then 0
    else
      assert Pow(|bytes|) == 256 * Pow(|bytes| - 1);
      Unsigned(bytes[..|bytes| - 1]) * 256 + bytes[|bytes| - 1]
  }

  /** The low `width` bytes of `n`, most significant first. */
  function BigEndian(n: nat, width: nat): (bytes: Bytes)
    ensures |bytes| == width
  {
    if width == 0 then [] else BigEndian(n / 256, width - 1) + [n % 256]
  }

  lemma {:induction false} UnsignedOfBigEndian(n: nat, width: nat)
    requires n < Pow(width)
    ensures Unsigned(BigEndian(n, width)) == n
  {
    if width > 0 {
      UnsignedOfBigEndian(n / 256, width - 1);
      assert BigEndian(n, width)[..width - 1] == BigEndian(n / 256, width - 1);
    }
  }

  lemma {:induction false} BigEndianOfUnsigned(bytes: Bytes)
    ensures BigEndian(Unsigned(bytes), |bytes|) == bytes
  {
    if bytes != [] {
      var front, last, u := bytes[..|bytes| - 1], bytes[|bytes| - 1], Unsigned(bytes);
      assert u == Unsigned(front) * 256 + last;
      assert u / 256 == Unsigned(front) && u % 256 == last;
      BigEndianOfUnsigned(front);
    }
  }

  /** Two's complement reading of a big-endian integer. */
  function Signed(bytes: Bytes): int {
    var u := Unsigned(bytes);
    if 2 * u >= Pow(|bytes|) then u - Pow(|bytes|) else u
  }

  /** Two's complement writing; a value too large for `width` bytes is truncated. */
  function SignedBytes(n: int, width: nat): (bytes: Bytes)
    ensures |bytes| == width
  {
    BigEndian(if n >= 0 then n else if n + Pow(width) >= 0 then n + Pow(width) else 0, width)
  }

  predicate FitsWidth(n: int, width: nat) {
    width > 0 && 0 - Pow(width) <= 2 * n < Pow(width)
  }

  lemma SignedRoundTrip(n: int, width: nat)
    requires FitsWidth(n, width)
    ensures Signed(SignedBytes(n, width)) == n
  {
    UnsignedOfBigEndian(if n >= 0 then n else n + Pow(width), width);
  }

  lemma SignedReverse(bytes: Bytes)
    ensures SignedBytes(Signed(bytes), |bytes|) == bytes
    ensures |bytes| > 0 ==> FitsWidth(Signed(bytes), |bytes|)
  {
    BigEndianOfUnsigned(bytes);
  }

  // ------------------------------------------------------------------- UTF-8

  predicate Tail(b: Byte) { 0x80 <= b <= 0xBF }

  /** The number of bytes of the UTF-8 character at the front of `s`, or 0 when there is
      none (section 4 of RFC 3629). */
  function Utf8Lead(s: Bytes): (n: nat)
    ensures n <= |s|
  {
    if |s| >= 1 && s[0] <= 0x7F then 1
    else if |s| >= 2 && 0xC2 <= s[0] <= 0xDF && Tail(s[1]) then 2
    else if |s| >= 3 && Utf8Second3(s[0], s[1]) && Tail(s[2]) then 3
    else if |s| >= 4 && Utf8Second4(s[0], s[1]) && Tail(s[2]) && Tail(s[3]) then 4
    else 0
  }

  predicate Utf8Second3(lead: Byte, second: Byte) {
    || (lead == 0xE0 && 0xA0 <= second <= 0xBF)
    || (lead == 0xED && 0x80 <= second <= 0x9F)
    || ((0xE1 <= lead <= 0xEC || 0xEE <= lead <= 0xEF) && Tail(second))
  }

  predicate Utf8Second4(lead: Byte, second: Byte) {
    || (lead == 0xF0 && 0x90 <= second <= 0xBF)
    || (lead == 0xF4 && 0x80 <= second <= 0x8F)
    || (0xF1 <= lead <= 0xF3 && Tail(second))
  }

  predicate ValidUtf8(s: Bytes) {
    s == [] || (Utf8Lead(s) > 0 && ValidUtf8(s[Utf8Lead(s)..]))
  }

  // ------------------------------------------------------- formats and values

  datatype Format =
    | Int(width: nat)
    | Boolean
    | NullableString
    | NullableBytes
    | Array(element: Format)
    | Struct(fields: seq<Format>)
    | Sized(body: Format)

  datatype Value =
    | IntV(n: int)
    | BoolV(b: bool)
    | BytesV(data: Option<Bytes>)
    | ArrayV(items: seq<Value>)
    | StructV(parts: seq<Value>)

  type Int8 = n: int | -0x80 <= n < 0x80
  type Int16 = n: int | -0x8000 <= n < 0x8000
  type Int32 = n: int | -0x8000_0000 <= n < 0x8000_0000
  type Int64 = n: int | -0x8000_0000_0000_0000 <= n < 0x8000_0000_0000_0000

  /** Go's conversion to int32, and its int32 arithmetic. */
  function Cast32(n: int): Int32 {
    var m := n % 0x1_0000_0000;
    if m >= 0x8000_0000 then m - 0x1_0000_0000 else m
  }

  /** Go's conversion to int64, and its int64 arithmetic. */
  function Cast64(n: int): Int64 {
    var m := n % 0x1_0000_0000_0000_0000;
    if m >= 0x8000_0000_0000_0000 then m - 0x1_0000_0000_0000_0000 else m
  }

  /** A conversion gives the one number of the type that is a whole number of turns away. */
  lemma CastWraps(n: Int32, m: Int64, turns: int)
    ensures Cast32(n + turns * 0x1_0000_0000) == n
    ensures Cast64(m + turns * 0x1_0000_0000_0000_0000) == m
  {
    assert (n + turns * 0x1_0000_0000) % 0x1_0000_0000 == n % 0x1_0000_0000;
    assert (m + turns * 0x1_0000_0000_0000_0000) % 0x1_0000_0000_0000_0000 == m % 0x1_0000_0000_0000_0000;
  }

  /** `v` has the shape of `f`, with integers that fit their widths. */
  predicate Shaped(f: Format, v: Value)
    decreases f
  {
    match f
    case Int(w) => v.IntV? && FitsWidth(v.n, w)
    case Boolean => v.BoolV?
    case NullableString => v.BytesV?
    case NullableBytes => v.BytesV?
    case Array(e) => v.ArrayV? && forall i :: 0 <= i < |v.items| ==> Shaped(e, v.items[i])
    case Struct(fs) =>
      v.StructV? && |v.parts| == |fs| && forall i :: 0 <= i < |fs| ==> Shaped(fs[i], v.parts[i])
    case Sized(b) => Shaped(b, v)
  }

  /** `v` has the shape of `f` and the writer reports no error for it: strings are valid UTF-8
      of at most 2^15 - 1 bytes, arrays have fewer than 2^31 elements.  The lengths of byte
      strings are not checked. */
  predicate Writable(f: Format, v: Value)
    decreases f
  {
    match f
    case Int(_) => v.IntV?
    case Boolean => v.BoolV?
    case NullableString => v.BytesV? && (v.data.Some? ==> ValidUtf8(v.data.value) && |v.data.value| <= MAX_INT16)
    case NullableBytes => v.BytesV?
    case Array(e) =>
      v.ArrayV? && |v.items| <= MAX_INT32 && forall i :: 0 <= i < |v.items| ==> Writable(e, v.items[i])
    case Struct(fs) =>
      v.StructV? && |v.parts| == |fs| && forall i :: 0 <= i < |fs| ==> Writable(fs[i], v.parts[i])
    case Sized(b) => Writable(b, v)
  }

  /** `v` is a value that `f` can carry: writable, with every integer in its width and every
      32-bit length field able to hold its length. */
  predicate Fits(f: Format, v: Value)
    decreases f
  {
    match f
    case Int(w) => v.IntV? && FitsWidth(v.n, w)
    case Boolean => v.BoolV?
    case NullableString => v.BytesV? && (v.data.Some? ==> ValidUtf8(v.data.value) && |v.data.value| <= MAX_INT16)
    case NullableBytes => v.BytesV? && (v.data.Some? ==> |v.data.value| <= MAX_INT32)
    case Array(e) =>
      v.ArrayV? && |v.items| <= MAX_INT32 && forall i :: 0 <= i < |v.items| ==> Fits(e, v.items[i])
    case Struct(fs) =>
      v.StructV? && |v.parts| == |fs| && forall i :: 0 <= i < |fs| ==> Fits(fs[i], v.parts[i])
    case Sized(b) => Fits(b, v) && |Serialize(b, v)| <= MAX_INT32
  }

  /** The bytes of `v` in format `f` (nothing for a value of another shape). */
  function Serialize(f: Format, v: Value): Bytes
    decreases f, 0
  {
    match f
    case Int(w) => if v.IntV? then SignedBytes(v.n, w) else []
    case Boolean => if v.BoolV? then SignedBytes(if v.b then 1 else 0, 1) else []
    case NullableString => if v.BytesV? then SerializeNullable(v.data, 2) else []
    case NullableBytes => if v.BytesV? then SerializeNullable(v.data, 4) else []
    case Array(e) => if v.ArrayV? then SignedBytes(|v.items|, 4) + SerializeAll(e, v.items) else []
    case Struct(fs) =>
      if v.StructV? && |v.parts| == |fs| then SerializeFields(fs, v.parts, |fs|) else []
    case Sized(b) => SignedBytes(|Serialize(b, v)|, 4) + Serialize(b, v)
  }

  function SerializeNullable(data: Option<Bytes>, width: nat): Bytes {
    if data.None? then SignedBytes(-1, width) else SignedBytes(|data.value|, width) + data.value
  }

  function SerializeAll(e: Format, items: seq<Value>): Bytes
    decreases e, |items| + 1
  {
    if items == [] then []
    else SerializeAll(e, items[..|items| - 1]) + Serialize(e, items[|items| - 1])
  }

  /** The first `k` fields of a structure. */
  function SerializeFields(fs: seq<Format>, parts: seq<Value>, k: nat): Bytes
    requires k <= |fs| == |parts|
    decreases fs, k + 1
  {
    if k == 0 then [] else SerializeFields(fs, parts, k - 1) + Serialize(fs[k - 1], parts[k - 1])
  }

  // ------------------------------------------------------------------ parsing

  function ParseInt(s: Bytes, p: nat, width: nat): (r: Option<int>)
    ensures r.Some? ==> FitsWidth(r.value, width)
  {
    if |s| < p + width || width == 0 then None
    else
      SignedReverse(s[p..p + width]);
      Some(Signed(s[p..p + width]))
  }

  /** The value at position `p` of `s` and the position after it. */
  function Parse(f: Format, s: Bytes, p: nat): (r: Option<(Value, nat)>)
    ensures r.Some? ==> p <= r.value.1 <= |s| && Shaped(f, r.value.0)
    decreases f, 0
  {
    match f
    case Int(w) =>
      var n := ParseInt(s, p, w);
      if n.None? then None else Some((IntV(n.value), p + w))
    case Boolean =>
      var n := ParseInt(s, p, 1);
      if n == Some(0) then Some((BoolV(false), p + 1))
      else if n == Some(1) then Some((BoolV(true), p + 1))
      else None
    case NullableString => ParseNullable(s, p, 2, true)
    case NullableBytes => ParseNullable(s, p, 4, false)
    case Array(e) =>
      var n := ParseInt(s, p, 4);
      if n.None? || n.value < 0 then None
      else
        var items := ParseMany(e, s, p + 4, n.value);
        if items.None? then None else Some((ArrayV(items.value.0), items.value.1))
    case Struct(fs) =>
      var parts := ParseFields(fs, s, p, |fs|);
      if parts.None? then None else Some((StructV(parts.value.0), parts.value.1))
    case Sized(b) =>
      var n := ParseInt(s, p, 4);
      if n.None? || n.value < 0 || |s| < p + 4 + n.value then None
      else
        var x := Parse(b, s[p + 4..p + 4 + n.value], 0);
        if x.None? || x.value.1 != n.value then None else Some((x.value.0, p + 4 + n.value))
  }

  function ParseNullable(s: Bytes, p: nat, width: nat, text: bool): (r: Option<(Value, nat)>)
    ensures r.Some? ==> p <= r.value.1 <= |s| && r.value.0.BytesV?
  {
    var n := ParseInt(s, p, width);
    if n.None? then None
    else if n.value < 0 then Some((BytesV(None), p + width))
    else if |s| < p + width + n.value then None
    else
      var data := s[p + width..p + width + n.value];
      if text && !ValidUtf8(data) then None else Some((BytesV(Some(data)), p + width + n.value))
  }

  /** `count` consecutive elements, read from position `p` on. */
  function ParseMany(e: Format, s: Bytes, p: nat, count: nat): (r: Option<(seq<Value>, nat)>)
    ensures r.Some? ==> p <= r.value.1 <= |s| && |r.value.0| == count
    ensures r.Some? ==> forall i :: 0 <= i < count ==> Shaped(e, r.value.0[i])
    decreases e, count + 1
  {
    if count == 0 then (if p <= |s| then Some(([], p)) else None)
    else
      var front := ParseMany(e, s, p, count - 1);
      if front.None? then None
      else
        var last := Parse(e, s, front.value.1);
        if last.None? then None else Some((front.value.0 + [last.value.0], last.value.1))
  }

  /** The first `k` fields of a structure, read from position `p` on. */
  function ParseFields(fs: seq<Format>, s: Bytes, p: nat, k: nat): (r: Option<(seq<Value>, nat)>)
    requires k <= |fs|
    ensures r.Some? ==> p <= r.value.1 <= |s| && |r.value.0| == k
    ensures r.Some? ==> forall i :: 0 <= i < k ==> Shaped(fs[i], r.value.0[i])
    decreases fs, k + 1
  {
    if k == 0 then (if p <= |s| then Some(([], p)) else None)
    else
      var front := ParseFields(fs, s, p, k - 1);
      if front.None? then None
      else
        var last := Parse(fs[k - 1], s, front.value.1);
        if last.None? then None else Some((front.value.0 + [last.value.0], last.value.1))
  }

  /** Once a field is malformed, the structure is malformed. */
  lemma {:induction false} ParseFieldsFails(fs: seq<Format>, s: Bytes, p: nat, i: nat, k: nat)
    requires i <= k <= |fs| && ParseFields(fs, s, p, i).None?
    ensures ParseFields(fs, s, p, k).None?
    decreases k
  {
    hide Parse;
    if i < k {
      ParseFieldsFails(fs, s, p, i, k - 1);
    }
  }

  /** Once an element is malformed, every longer array is malformed. */
  lemma {:induction false} ParseManyFails(e: Format, s: Bytes, p: nat, i: nat, count: nat)
    requires i <= count && ParseMany(e, s, p, i).None?
    ensures ParseMany(e, s, p, count).None?
    decreases count
  {
    hide Parse;
    if i < count {
      ParseManyFails(e, s, p, i, count - 1);
    }
  }

  // --------------------------------------------------- decoding inverts encoding

  /** `out` stands at position `p` of `s`. */
  predicate At(s: Bytes, p: nat, out: Bytes) {
    p + |out| <= |s| && s[p..p + |out|] == out
  }

  /** Reading what was written gives the value back, wherever it stands. */
  lemma {:induction false} ParseSerialized(f: Format, v: Value, s: Bytes, p: nat)
    requires Fits(f, v) && At(s, p, Serialize(f, v))
    ensures Parse(f, s, p) == Some((v, p + |Serialize(f, v)|))
    decreases f, 0
  {
    hide *;
    match f {
      case Array(e) =>
        ArrayUnfolds(e, v);
        PrefixSerialized(|v.items|, SerializeAll(e, v.items), s, p);
        ArrayParses(e, s, p);
        ManySerialized(e, v.items, s, p + 4);
      case Struct(fs) =>
        StructUnfolds(fs, v);
        StructParses(fs, s, p);
        FieldsSerialized(fs, v.parts, s, p, |fs|);
        assert v.parts[..|fs|] == v.parts;
      case Sized(b) =>
        SizedUnfolds(b, v);
        var body := Serialize(b, v);
        PrefixSerialized(|body|, body, s, p);
        SizedParses(b, s, p);
        AtStart(body);
        ParseSerialized(b, v, body, 0);
      case _ =>
        LeafSerialized(f, v, s, p);
    }
  }

  lemma {:induction false} ManySerialized(e: Format, items: seq<Value>, s: Bytes, p: nat)
    requires forall i :: 0 <= i < |items| ==> Fits(e, items[i])
    requires At(s, p, SerializeAll(e, items))
    ensures ParseMany(e, s, p, |items|) == Some((items, p + |SerializeAll(e, items)|))
    decreases e, |items| + 1
  {
    AllUnfolds(e, items);
    ManyParsesNone(e, s, p);
    hide Parse, ParseMany, Serialize, SerializeAll, Fits;
    if items == [] {
    } else {
      var front, last := items[..|items| - 1], items[|items| - 1];
      var out, tail := SerializeAll(e, front), Serialize(e, last);
      Halves(out, tail, s, p);
      ManySerialized(e, front, s, p);
      ParseSerialized(e, last, s, p + |out|);
      ManyParses(e, s, p, |items|);
      assert items == front + [last];
    }
  }

  lemma {:induction false} FieldsSerialized(fs: seq<Format>, parts: seq<Value>, s: Bytes, p: nat, k: nat)
    requires k <= |fs| == |parts| && forall i :: 0 <= i < |fs| ==> Fits(fs[i], parts[i])
    requires At(s, p, SerializeFields(fs, parts, k))
    ensures ParseFields(fs, s, p, k) == Some((parts[..k], p + |SerializeFields(fs, parts, k)|))
    decreases fs, k + 1
  {
    hide Parse, Serialize, Fits;
    if k == 0 {
    } else {
      var out, tail := SerializeFields(fs, parts, k - 1), Serialize(fs[k - 1], parts[k - 1]);
      assert parts[..k] == parts[..k - 1] + [parts[k - 1]];
      Halves(out, tail, s, p);
      FieldsSerialized(fs, parts, s, p, k - 1);
      ParseSerialized(fs[k - 1], parts[k - 1], s, p + |out|);
    }
  }

  lemma PowValues()
    ensures Pow(1) == 0x100 && Pow(2) == 0x1_0000 && Pow(4) == 0x1_0000_0000
    ensures Pow(8) == 0x1_0000_0000_0000_0000
  {
    assert Pow(1) == 256 * Pow(0) && Pow(2) == 256 * Pow(1) && Pow(3) == 256 * Pow(2);
    assert Pow(4) == 256 * Pow(3) && Pow(5) == 256 * Pow(4) && Pow(6) == 256 * Pow(5);
    assert Pow(7) == 256 * Pow(6) && Pow(8) == 256 * Pow(7);
  }

  lemma AtStart(body: Bytes)
    ensures At(body, 0, body)
  {
    assert body[0..|body|] == body;
  }

  lemma Halves(left: Bytes, right: Bytes, s: Bytes, p: nat)
    requires At(s, p, left + right)
    ensures p + |left| + |right| <= |s|
    ensures At(s, p, left) && At(s, p + |left|, right)
  {
    var out := s[p..p + |left| + |right|];
    assert s[p..p + |left|] == out[..|left|];
    assert s[p + |left|..p + |left| + |right|] == out[|left|..];
  }

  /** A four-byte count followed by `rest`. */
  lemma PrefixSerialized(n: nat, rest: Bytes, s: Bytes, p: nat)
    requires n <= MAX_INT32 && At(s, p, SignedBytes(n, 4) + rest)
    ensures p + 4 + |rest| <= |s| && s[p + 4..p + 4 + |rest|] == rest
    ensures ParseInt(s, p, 4) == Some(n) && At(s, p + 4, rest)
  {
    PowValues();
    Halves(SignedBytes(n, 4), rest, s, p);
    IntSerialized(n, 4, s, p);
  }

  lemma LeafSerialized(f: Format, v: Value, s: Bytes, p: nat)
    requires f.Int? || f.Boolean? || f.NullableString? || f.NullableBytes?
    requires Fits(f, v) && At(s, p, Serialize(f, v))
    ensures Parse(f, s, p) == Some((v, p + |Serialize(f, v)|))
  {
    hide At, SignedBytes, ParseInt, ParseNullable, SerializeNullable, ValidUtf8, Pow;
    match f {
      case Int(w) =>
        IntSerialized(v.n, w, s, p);
      case Boolean =>
        PowValues();
        IntSerialized(if v.b then 1 else 0, 1, s, p);
      case NullableString =>
        NullableSerialized(v.data, 2, true, s, p);
      case NullableBytes =>
        NullableSerialized(v.data, 4, false, s, p);
    }
  }

  lemma IntSerialized(n: int, width: nat, s: Bytes, p: nat)
    requires FitsWidth(n, width) && At(s, p, SignedBytes(n, width))
    ensures ParseInt(s, p, width) == Some(n)
  {
    SignedRoundTrip(n, width);
  }

  lemma NullableSerialized(data: Option<Bytes>, width: nat, text: bool, s: Bytes, p: nat)
    requires width == 2 || width == 4
    requires data.Some? ==> |data.value| <= (if width == 2 then MAX_INT16 else MAX_INT32)
    requires data.Some? && text ==> ValidUtf8(data.value)
    requires At(s, p, SerializeNullable(data, width))
    ensures ParseNullable(s, p, width, text) == Some((BytesV(data), p + |SerializeNullable(data, width)|))
  {
    PowValues();
    if data.None? {
      IntSerialized(-1, width, s, p);
    } else {
      Halves(SignedBytes(|data.value|, width), data.value, s, p);
      IntSerialized(|data.value|, width, s, p);
    }
  }

  // One step of each definition, for proofs that keep the definitions themselves hidden.

  lemma ArrayUnfolds(e: Format, v: Value)
    ensures v.ArrayV? ==> Serialize(Array(e), v) == SignedBytes(|v.items|, 4) + SerializeAll(e, v.items)
    ensures Fits(Array(e), v) <==>
              v.ArrayV? && |v.items| <= MAX_INT32 && forall i :: 0 <= i < |v.items| ==> Fits(e, v.items[i])
  {}

  lemma ArrayParses(e: Format, s: Bytes, p: nat)
    ensures var n := ParseInt(s, p, 4);
            Parse(Array(e), s, p) ==
            if n.None? || n.value < 0 then None
            else
              var items := ParseMany(e, s, p + 4, n.value);
              if items.None? then None else Some((ArrayV(items.value.0), items.value.1))
  {}

  lemma AllUnfolds(e: Format, items: seq<Value>)
    ensures SerializeAll(e, items) ==
            if items == [] then []
            else SerializeAll(e, items[..|items| - 1]) + Serialize(e, items[|items| - 1])
  {}

  lemma IntParses(width: nat, s: Bytes, p: nat)
    ensures var n := ParseInt(s, p, width);
            Parse(Int(width), s, p) == if n.None? then None else Some((IntV(n.value), p + width))
  {}

  lemma ManyParsesNone(e: Format, s: Bytes, p: nat)
    ensures ParseMany(e, s, p, 0) == if p <= |s| then Some(([], p)) else None
  {}

  lemma ManyParses(e: Format, s: Bytes, p: nat, count: nat)
    requires count > 0
    ensures var front := ParseMany(e, s, p, count - 1);
            ParseMany(e, s, p, count) ==
            if front.None? then None
            else
              var last := Parse(e, s, front.value.1);
              if last.None? then None else Some((front.value.0 + [last.value.0], last.value.1))
  {}

  lemma FieldsParse(fs: seq<Format>, s: Bytes, p: nat, k: nat)
    requires 0 < k <= |fs|
    ensures var front := ParseFields(fs, s, p, k - 1);
            ParseFields(fs, s, p, k) ==
            if front.None? then None
            else
              var last := Parse(fs[k - 1], s, front.value.1);
              if last.None? then None else Some((front.value.0 + [last.value.0], last.value.1))
  {}

  /** A decoder of `Struct(fs)` that started at `p` has read `parts` and stands at `pos`. */
  predicate Reached(fs: seq<Format>, s: Bytes, p: nat, parts: seq<Value>, pos: nat) {
    |parts| <= |fs| && ParseFields(fs, s, p, |parts|) == Some((parts, pos))
  }

  lemma StartStruct(fs: seq<Format>, s: Bytes, p: nat)
    requires p <= |s|
    ensures Reached(fs, s, p, [], p)
  {}

  /** The next field decides between failure of the whole structure and one more field. */
  lemma NextField(fs: seq<Format>, s: Bytes, p: nat, parts: seq<Value>, pos: nat)
    requires |parts| < |fs| && Reached(fs, s, p, parts, pos)
    ensures Parse(fs[|parts|], s, pos).None? ==> Parse(Struct(fs), s, p).None?
    ensures Parse(fs[|parts|], s, pos).Some? ==>
              var (v, q) := Parse(fs[|parts|], s, pos).value;
              Reached(fs, s, p, parts + [v], q)
  {
    var k := |parts|;
    FieldsParse(fs, s, p, k + 1);
    StructParses(fs, s, p);
    hide Parse, ParseFields;
    if Parse(fs[k], s, pos).None? {
      ParseFieldsFails(fs, s, p, k + 1, |fs|);
    }
  }

  lemma EndStruct(fs: seq<Format>, s: Bytes, p: nat, parts: seq<Value>, pos: nat)
    requires |parts| == |fs| && Reached(fs, s, p, parts, pos)
    ensures Parse(Struct(fs), s, p) == Some((StructV(parts), pos))
  {
    StructParses(fs, s, p);
  }

  /** The same for an array of `count` elements of which `i` have been read. */
  lemma NextItem(e: Format, s: Bytes, p: nat, count: nat, i: nat, items: seq<Value>, pos: nat)
    requires ParseInt(s, p, 4) == Some(count) && i < count && ParseMany(e, s, p + 4, i) == Some((items, pos))
    ensures Parse(e, s, pos).None? ==> Parse(Array(e), s, p).None?
    ensures Parse(e, s, pos).Some? ==>
              var (v, q) := Parse(e, s, pos).value;
              ParseMany(e, s, p + 4, i + 1) == Some((items + [v], q))
  {
    hide *;
    ManyParses(e, s, p + 4, i + 1);
    ArrayParses(e, s, p);
    if Parse(e, s, pos).None? {
      ParseManyFails(e, s, p + 4, i + 1, count);
    }
  }

  lemma FieldsParseNone(fs: seq<Format>, s: Bytes, p: nat)
    ensures ParseFields(fs, s, p, 0) == if p <= |s| then Some(([], p)) else None
  {}

  lemma StructUnfolds(fs: seq<Format>, v: Value)
    ensures v.StructV? && |v.parts| == |fs| ==> Serialize(Struct(fs), v) == SerializeFields(fs, v.parts, |fs|)
    ensures Fits(Struct(fs), v) <==>
              v.StructV? && |v.parts| == |fs| && forall i :: 0 <= i < |fs| ==> Fits(fs[i], v.parts[i])
  {}

  lemma StructParses(fs: seq<Format>, s: Bytes, p: nat)
    ensures var parts := ParseFields(fs, s, p, |fs|);
            Parse(Struct(fs), s, p) ==
            if parts.None? then None else Some((StructV(parts.value.0), parts.value.1))
  {}

  lemma SizedUnfolds(b: Format, v: Value)
    ensures Serialize(Sized(b), v) == SignedBytes(|Serialize(b, v)|, 4) + Serialize(b, v)
    ensures Fits(Sized(b), v) <==> Fits(b, v) && |Serialize(b, v)| <= MAX_INT32
    ensures Writable(Sized(b), v) <==> Writable(b, v)
  {}

  lemma SizedParses(b: Format, s: Bytes, p: nat)
    ensures var n := ParseInt(s, p, 4);
            Parse(Sized(b), s, p) ==
            if n.None? || n.value < 0 || |s| < p + 4 + n.value then None
            else
              var x := Parse(b, s[p + 4..p + 4 + n.value], 0);
              if x.None? || x.value.1 != n.value then None else Some((x.value.0, p + 4 + n.value))
  {}

  // ----------------------------------------------------------- self-delimitation

  /** `s` and `t` both reach position `q` and agree from `p` up to it. */
  predicate Same(s: Bytes, t: Bytes, p: nat, q: nat) {
    p <= q <= |s| && q <= |t| && s[p..q] == t[p..q]
  }

  lemma SameWithin(s: Bytes, t: Bytes, p: nat, q: nat, a: nat, b: nat)
    requires Same(s, t, p, q) && p <= a <= b <= q
    ensures Same(s, t, a, b)
  {
    forall i | a <= i < b
      ensures s[i] == t[i]
    {
      assert s[i] == s[p..q][i - p] == t[p..q][i - p];
    }
  }

  /** A parse depends only on the bytes it consumes: it gives the same value and the same end
      on every byte string that agrees with `s` there, whatever follows or precedes. */
  lemma {:induction false} ParseIsLocal(f: Format, s: Bytes, t: Bytes, p: nat)
    requires Parse(f, s, p).Some? && Same(s, t, p, Parse(f, s, p).value.1)
    ensures Parse(f, t, p) == Parse(f, s, p)
    decreases f, 1
  {
    if f.Int? || f.Boolean? || f.NullableString? || f.NullableBytes? {
      LeafIsLocal(f, s, t, p);
    } else {
      match f {
        case Array(e) => ArrayIsLocal(e, s, t, p);
        case Struct(fs) => StructIsLocal(fs, s, t, p);
        case Sized(b) => SizedIsLocal(b, s, t, p);
      }
    }
  }

  lemma LeafIsLocal(f: Format, s: Bytes, t: Bytes, p: nat)
    requires f.Int? || f.Boolean? || f.NullableString? || f.NullableBytes?
    requires Parse(f, s, p).Some? && Same(s, t, p, Parse(f, s, p).value.1)
    ensures Parse(f, t, p) == Parse(f, s, p)
  {
    match f
    case Int(w) => SameWithin(s, t, p, p + w, p, p + w);
    case Boolean => SameWithin(s, t, p, p + 1, p, p + 1);
    case NullableString => NullableIsLocal(s, t, p, 2, true);
    case NullableBytes => NullableIsLocal(s, t, p, 4, false);
  }

  lemma NullableIsLocal(s: Bytes, t: Bytes, p: nat, width: nat, text: bool)
    requires ParseNullable(s, p, width, text).Some?
    requires Same(s, t, p, ParseNullable(s, p, width, text).value.1)
    ensures ParseNullable(t, p, width, text) == ParseNullable(s, p, width, text)
  {
    var q := ParseNullable(s, p, width, text).value.1;
    SameWithin(s, t, p, q, p, p + width);
    SameWithin(s, t, p, q, p + width, q);
  }

  lemma {:induction false} ArrayIsLocal(e: Format, s: Bytes, t: Bytes, p: nat)
    requires Parse(Array(e), s, p).Some? && Same(s, t, p, Parse(Array(e), s, p).value.1)
    ensures Parse(Array(e), t, p) == Parse(Array(e), s, p)
    decreases Array(e), 0
  {
    var q := Parse(Array(e), s, p).value.1;
    ArrayParses(e, s, p);
    ArrayParses(e, t, p);
    hide Parse;
    SameWithin(s, t, p, q, p, p + 4);
    SameWithin(s, t, p, q, p + 4, q);
    ManyIsLocal(e, s, t, p + 4, ParseInt(s, p, 4).value);
  }

  lemma {:induction false} StructIsLocal(fs: seq<Format>, s: Bytes, t: Bytes, p: nat)
    requires Parse(Struct(fs), s, p).Some? && Same(s, t, p, Parse(Struct(fs), s, p).value.1)
    ensures Parse(Struct(fs), t, p) == Parse(Struct(fs), s, p)
    decreases Struct(fs), 0
  {
    StructParses(fs, s, p);
    StructParses(fs, t, p);
    hide Parse;
    FieldsAreLocal(fs, s, t, p, |fs|);
  }

  lemma {:induction false} FieldsAreLocal(fs: seq<Format>, s: Bytes, t: Bytes, p: nat, k: nat)
    requires k <= |fs| && ParseFields(fs, s, p, k).Some?
    requires Same(s, t, p, ParseFields(fs, s, p, k).value.1)
    ensures ParseFields(fs, t, p, k) == ParseFields(fs, s, p, k)
    decreases fs, k + 2
  {
    hide Parse;
    if k > 0 {
      var q := ParseFields(fs, s, p, k).value.1;
      var m := ParseFields(fs, s, p, k - 1).value.1;
      SameWithin(s, t, p, q, p, m);
      SameWithin(s, t, p, q, m, q);
      FieldsAreLocal(fs, s, t, p, k - 1);
      ParseIsLocal(fs[k - 1], s, t, m);
    }
  }

  lemma SizedIsLocal(b: Format, s: Bytes, t: Bytes, p: nat)
    requires Parse(Sized(b), s, p).Some? && Same(s, t, p, Parse(Sized(b), s, p).value.1)
    ensures Parse(Sized(b), t, p) == Parse(Sized(b), s, p)
  {
    var q := Parse(Sized(b), s, p).value.1;
    SizedParses(b, s, p);
    SizedParses(b, t, p);
    hide Parse;
    SameWithin(s, t, p, q, p, p + 4);
    SameWithin(s, t, p, q, p + 4, q);
  }

  lemma {:induction false} ManyIsLocal(e: Format, s: Bytes, t: Bytes, p: nat, count: nat)
    requires ParseMany(e, s, p, count).Some?
    requires Same(s, t, p, ParseMany(e, s, p, count).value.1)
    ensures ParseMany(e, t, p, count) == ParseMany(e, s, p, count)
    decreases e, count + 2
  {
    hide Parse;
    if count > 0 {
      var q := ParseMany(e, s, p, count).value.1;
      var m := ParseMany(e, s, p, count - 1).value.1;
      SameWithin(s, t, p, q, p, m);
      SameWithin(s, t, p, q, m, q);
      ManyIsLocal(e, s, t, p, count - 1);
      ParseIsLocal(e, s, t, m);
    }
  }

  // --------------------------------------------------- encoding inverts decoding

  /** Every null length inside the value at `p` is written as -1; a decoder also accepts any
      other negative length. */
  predicate Canonical(f: Format, s: Bytes, p: nat)
    requires Parse(f, s, p).Some?
    decreases f, 0
  {
    match f
    case Int(_) => true
    case Boolean => true
    case NullableString => ParseInt(s, p, 2).value >= -1
    case NullableBytes => ParseInt(s, p, 4).value >= -1
    case Array(e) => CanonicalMany(e, s, p + 4, ParseInt(s, p, 4).value)
    case Struct(fs) => CanonicalFields(fs, s, p, |fs|)
    case Sized(b) => Canonical(b, s[p + 4..Parse(f, s, p).value.1], 0)
  }

  predicate CanonicalMany(e: Format, s: Bytes, p: nat, count: nat)
    requires ParseMany(e, s, p, count).Some?
    decreases e, count + 1
  {
    count == 0
    || (CanonicalMany(e, s, p, count - 1) && Canonical(e, s, ParseMany(e, s, p, count - 1).value.1))
  }

  predicate CanonicalFields(fs: seq<Format>, s: Bytes, p: nat, k: nat)
    requires k <= |fs| && ParseFields(fs, s, p, k).Some?
    decreases fs, k + 1
  {
    k == 0
    || (CanonicalFields(fs, s, p, k - 1) && Canonical(fs[k - 1], s, ParseFields(fs, s, p, k - 1).value.1))
  }

  /** `out` fills the room between `p` and `q`, and with the bytes standing there exactly
      when `same` holds. */
  predicate Refills(out: Bytes, s: Bytes, p: nat, q: nat, same: bool) {
    p + |out| == q <= |s| && (out == s[p..q] <==> same)
  }

  /** Re-encoding a decoded value takes exactly the room it was read from, and gives the same
      bytes if and only if the null lengths were canonical. */
  lemma {:induction false} SerializeParsed(f: Format, s: Bytes, p: nat)
    requires Parse(f, s, p).Some?
    ensures Refills(Serialize(f, Parse(f, s, p).value.0), s, p, Parse(f, s, p).value.1, Canonical(f, s, p))
    decreases f, 0
  {
    hide Parse, Serialize, Canonical, Refills;
    var (v, q) := Parse(f, s, p).value;
    match f {
      case Array(e) =>
        ArrayParses(e, s, p);
        ArrayUnfolds(e, v);
        CanonicalUnfolds(f, s, p);
        CountRefills(s, p);
        ManyParsed(e, s, p + 4, |v.items|);
        Joined(SignedBytes(|v.items|, 4), SerializeAll(e, v.items), s, p, p + 4, q,
               true, CanonicalMany(e, s, p + 4, |v.items|));
      case Struct(fs) =>
        StructParses(fs, s, p);
        StructUnfolds(fs, v);
        CanonicalUnfolds(f, s, p);
        FieldsParsed(fs, s, p, |fs|);
      case Sized(b) =>
        SizedParses(b, s, p);
        SizedUnfolds(b, v);
        CanonicalUnfolds(f, s, p);
        var body := s[p + 4..q];
        CountRefills(s, p);
        SerializeParsed(b, body, 0);
        Shifted(Serialize(b, v), s, p + 4, q, Canonical(b, body, 0));
        Joined(SignedBytes(|body|, 4), Serialize(b, v), s, p, p + 4, q, true, Canonical(b, body, 0));
      case _ =>
        LeafParsed(f, s, p);
    }
  }

  lemma {:induction false} ManyParsed(e: Format, s: Bytes, p: nat, count: nat)
    requires ParseMany(e, s, p, count).Some?
    ensures var (items, q) := ParseMany(e, s, p, count).value;
            Refills(SerializeAll(e, items), s, p, q, CanonicalMany(e, s, p, count))
    decreases e, count + 1
  {
    hide Parse, Serialize, Canonical;
    if count > 0 {
      var (items, q) := ParseMany(e, s, p, count).value;
      var (front, m) := ParseMany(e, s, p, count - 1).value;
      ManyParsed(e, s, p, count - 1);
      SerializeParsed(e, s, m);
      assert items[..count - 1] == front;
      Joined(SerializeAll(e, front), Serialize(e, items[count - 1]), s, p, m, q,
             CanonicalMany(e, s, p, count - 1), Canonical(e, s, m));
    }
  }

  lemma {:induction false} FieldsParsed(fs: seq<Format>, s: Bytes, p: nat, k: nat)
    requires k <= |fs| && ParseFields(fs, s, p, |fs|).Some?
    requires ParseFields(fs, s, p, k).Some?
    ensures var parts := ParseFields(fs, s, p, |fs|).value.0;
            Refills(SerializeFields(fs, parts, k), s, p, ParseFields(fs, s, p, k).value.1,
                    CanonicalFields(fs, s, p, k))
    decreases fs, k + 1
  {
    hide Parse, Serialize, Canonical;
    var parts := ParseFields(fs, s, p, |fs|).value.0;
    if k > 0 {
      var (front, m) := ParseFields(fs, s, p, k - 1).value;
      FieldsParsed(fs, s, p, k - 1);
      SerializeParsed(fs[k - 1], s, m);
      FieldsPrefix(fs, s, p, k, |fs|);
      Joined(SerializeFields(fs, parts, k - 1), Serialize(fs[k - 1], parts[k - 1]), s, p, m,
             ParseFields(fs, s, p, k).value.1, CanonicalFields(fs, s, p, k - 1), Canonical(fs[k - 1], s, m));
    }
  }

  /** Reading more fields leaves the first ones unchanged. */
  lemma {:induction false} FieldsPrefix(fs: seq<Format>, s: Bytes, p: nat, k: nat, n: nat)
    requires k <= n <= |fs| && ParseFields(fs, s, p, n).Some?
    ensures ParseFields(fs, s, p, k).Some?
    ensures ParseFields(fs, s, p, n).value.0[..k] == ParseFields(fs, s, p, k).value.0
    decreases n
  {
    hide Parse;
    if k < n {
      FieldsPrefix(fs, s, p, k, n - 1);
    }
  }

  lemma Joined(left: Bytes, right: Bytes, s: Bytes, p: nat, m: nat, q: nat, same1: bool, same2: bool)
    requires Refills(left, s, p, m, same1) && Refills(right, s, m, q, same2)
    ensures Refills(left + right, s, p, q, same1 && same2)
  {
    assert s[p..q] == s[p..m] + s[m..q];
    if left + right == s[p..q] {
      assert left == (left + right)[..|left|] == s[p..q][..|left|] == s[p..m];
      assert right == (left + right)[|left|..] == s[p..q][|left|..] == s[m..q];
    }
  }

  lemma Shifted(out: Bytes, s: Bytes, p: nat, q: nat, same: bool)
    requires p <= q <= |s| && Refills(out, s[p..q], 0, q - p, same)
    ensures Refills(out, s, p, q, same)
  {
    assert s[p..q][0..q - p] == s[p..q];
  }

  lemma CountRefills(s: Bytes, p: nat)
    requires ParseInt(s, p, 4).Some?
    ensures Refills(SignedBytes(ParseInt(s, p, 4).value, 4), s, p, p + 4, true)
  {
    SignedReverse(s[p..p + 4]);
  }

  lemma CanonicalUnfolds(f: Format, s: Bytes, p: nat)
    requires Parse(f, s, p).Some?
    ensures f.Array? ==>
              (Canonical(f, s, p) <==> CanonicalMany(f.element, s, p + 4, ParseInt(s, p, 4).value))
    ensures f.Struct? ==> (Canonical(f, s, p) <==> CanonicalFields(f.fields, s, p, |f.fields|))
    ensures f.Sized? ==> (Canonical(f, s, p) <==> Canonical(f.body, s[p + 4..Parse(f, s, p).value.1], 0))
  {}

  lemma LeafParsed(f: Format, s: Bytes, p: nat)
    requires f.Int? || f.Boolean? || f.NullableString? || f.NullableBytes?
    requires Parse(f, s, p).Some?
    ensures Refills(Serialize(f, Parse(f, s, p).value.0), s, p, Parse(f, s, p).value.1, Canonical(f, s, p))
  {
    match f
    case Int(w) => SignedReverse(s[p..p + w]);
    case Boolean => SignedReverse(s[p..p + 1]);
    case NullableString => NullableParsed(s, p, 2, true);
    case NullableBytes => NullableParsed(s, p, 4, false);
  }

  lemma NullableParsed(s: Bytes, p: nat, width: nat, text: bool)
    requires (width == 2 || width == 4) && ParseNullable(s, p, width, text).Some?
    ensures var (v, q) := ParseNullable(s, p, width, text).value;
            Refills(SerializeNullable(v.data, width), s, p, q, ParseInt(s, p, width).value >= -1)
  {
    PowValues();
    SignedReverse(s[p..p + width]);
    SignedRoundTrip(-1, width);
    var (v, q) := ParseNullable(s, p, width, text).value;
    if v.data.Some? {
      var n := |v.data.value|;
      Joined(SignedBytes(n, width), v.data.value, s, p, p + width, q, true, true);
    }
  }

  // ------------------------------------------------------------- what a format can carry

  lemma {:induction false} ItemIsSmaller(e: Format, items: seq<Value>, i: nat)
    requires i < |items|
    ensures |Serialize(e, items[i])| <= |SerializeAll(e, items)|
    decreases |items|
  {
    hide Serialize;
    if i < |items| - 1 {
      ItemIsSmaller(e, items[..|items| - 1], i);
    }
  }

  lemma {:induction false} FieldIsSmaller(fs: seq<Format>, parts: seq<Value>, i: nat, k: nat)
    requires i < k <= |fs| == |parts|
    ensures |Serialize(fs[i], parts[i])| <= |SerializeFields(fs, parts, k)|
    decreases k
  {
    hide Serialize;
    if i < k - 1 {
      FieldIsSmaller(fs, parts, i, k - 1);
    }
  }

  /** A value that is written without error and whose bytes can be counted in 31 bits is one
      its format can carry: no inner length overflows unless the outer one does. */
  lemma {:induction false} WritableFits(f: Format, v: Value)
    requires Shaped(f, v) && Writable(f, v) && |Serialize(f, v)| <= MAX_INT32
    ensures Fits(f, v)
    decreases f
  {
    match f {
      case Array(e) =>
        ArrayUnfolds(e, v);
        forall i | 0 <= i < |v.items|
          ensures Fits(e, v.items[i])
        {
          ItemIsSmaller(e, v.items, i);
          WritableFits(e, v.items[i]);
        }
      case Struct(fs) =>
        StructUnfolds(fs, v);
        forall i | 0 <= i < |fs|
          ensures Fits(fs[i], v.parts[i])
        {
          FieldIsSmaller(fs, v.parts, i, |fs|);
          WritableFits(fs[i], v.parts[i]);
        }
      case Sized(b) =>
        SizedUnfolds(b, v);
        WritableFits(b, v);
      case _ =>
    }
  }
}
