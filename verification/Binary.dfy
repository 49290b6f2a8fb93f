/** The writer and the reader of protocol primitives (protocol/codec/binary.go), each proved
    against the formats of module `Wire`. */
module Binary {
  import opened Wrappers
  import opened Wire

  // ------------------------------------------------------------------ writing

  /** What a writer holds after `v` was written in format `f`: once an error is latched,
      nothing is ever returned. */
  function Append(out: Option<Bytes>, f: Format, v: Value): Option<Bytes> {
    if out.Some? && Writable(f, v) then Some(out.value + Serialize(f, v)) else None
  }

  function AppendRaw(out: Option<Bytes>, raw: Bytes): Option<Bytes> {
    if out.Some? then Some(out.value + raw) else None
  }

  function AppendFields(out: Option<Bytes>, fs: seq<Format>, parts: seq<Value>, k: nat): Option<Bytes>
    requires k <= |fs| == |parts|
  {
    if out.Some? && (forall i :: 0 <= i < k ==> Writable(fs[i], parts[i]))
    then Some(out.value + SerializeFields(fs, parts, k)) else None
  }

  function AppendAll(out: Option<Bytes>, e: Format, items: seq<Value>): Option<Bytes> {
    if out.Some? && (forall i :: 0 <= i < |items| ==> Writable(e, items[i]))
    then Some(out.value + SerializeAll(e, items)) else None
  }

  lemma AppendField(out: Option<Bytes>, fs: seq<Format>, parts: seq<Value>, k: nat)
    requires k < |fs| == |parts|
    ensures AppendFields(out, fs, parts, k + 1) == Append(AppendFields(out, fs, parts, k), fs[k], parts[k])
  {
    hide Serialize, Writable;
    var before := AppendFields(out, fs, parts, k);
    if before.Some? && Writable(fs[k], parts[k]) {
      assert before.value + Serialize(fs[k], parts[k])
          == out.value + (SerializeFields(fs, parts, k) + Serialize(fs[k], parts[k]));
    }
  }

  lemma AppendItem(out: Option<Bytes>, e: Format, items: seq<Value>, item: Value)
    ensures AppendAll(out, e, items + [item]) == Append(AppendAll(out, e, items), e, item)
  {
    hide Serialize, Writable;
    var all := items + [item];
    assert all[..|all| - 1] == items && all[|items|] == item;
    assert forall i :: 0 <= i < |items| ==> all[i] == items[i];
    if out.Some? && AppendAll(out, e, items).Some? && Writable(e, item) {
      assert out.value + SerializeAll(e, all) == out.value + SerializeAll(e, items) + Serialize(e, item);
    }
  }

  lemma AppendStruct(out: Option<Bytes>, fs: seq<Format>, parts: seq<Value>)
    requires |fs| == |parts|
    ensures Append(out, Struct(fs), StructV(parts)) == AppendFields(out, fs, parts, |fs|)
  {}

  lemma AppendArray(out: Option<Bytes>, e: Format, items: seq<Value>)
    requires |items| <= MAX_INT32
    ensures Append(out, Array(e), ArrayV(items)) == AppendAll(AppendRaw(out, SignedBytes(|items|, 4)), e, items)
  {
    hide SerializeAll;
    if out.Some? {
      assert out.value + (SignedBytes(|items|, 4) + SerializeAll(e, items))
          == (out.value + SignedBytes(|items|, 4)) + SerializeAll(e, items);
    }
  }

  class Writer {
    var bytes: Bytes
    var failed: bool

    constructor ()
      ensures Out() == Some([])
    {
      bytes, failed := [], false;
    }

    /** What `Bytes` returns now. */
    function Out(): Option<Bytes>
      reads this
    {
      if failed then None else Some(bytes)
    }

    method Result() returns (r: Option<Bytes>)
      ensures r == Out()
    {
      r := if failed then None else Some(bytes);
    }

    method WriteRawBytes(value: Bytes)
      modifies this
      ensures Out() == AppendRaw(old(Out()), value)
    {
      bytes := bytes + value;
    }

    method SetErr()
      modifies this
      ensures Out() == None
    {
      failed := true;
    }

    method WriteInt8(value: Int8)
      modifies this
      ensures Out() == Append(old(Out()), Int(1), IntV(value))
    {
      PowValues();
      bytes := bytes + SignedBytes(value, 1);
    }

    method WriteInt16(value: Int16)
      modifies this
      ensures Out() == Append(old(Out()), Int(2), IntV(value))
    {
      bytes := bytes + SignedBytes(value, 2);
    }

    method WriteInt32(value: Int32)
      modifies this
      ensures Out() == Append(old(Out()), Int(4), IntV(value))
    {
      bytes := bytes + SignedBytes(value, 4);
    }

    method WriteInt64(value: Int64)
      modifies this
      ensures Out() == Append(old(Out()), Int(8), IntV(value))
    {
      bytes := bytes + SignedBytes(value, 8);
    }

    method WriteNullableString(value: Option<Bytes>)
      modifies this
      ensures Out() == Append(old(Out()), NullableString, BytesV(value))
    {
      if value.None? {
        WriteInt16(-1);
      } else if !ValidUtf8(value.value) || |value.value| > MAX_INT16 {
        SetErr();
      } else {
        ghost var before := Out();
        WriteInt16(|value.value|);
        WriteRawBytes(value.value);
        assert before.Some? ==>
            before.value + SignedBytes(|value.value|, 2) + value.value
            == before.value + SerializeNullable(value, 2);
      }
    }

    /** The length is cast to 32 bits unchecked. */
    method WriteBytes(value: Option<Bytes>)
      modifies this
      ensures Out() == Append(old(Out()), NullableBytes, BytesV(value))
    {
      if value.None? {
        WriteInt32(-1);
      } else {
        ghost var before := Out();
        WriteCastLength(|value.value|);
        WriteRawBytes(value.value);
        assert before.Some? ==>
            before.value + SignedBytes(|value.value|, 4) + value.value
            == before.value + SerializeNullable(value, 4);
      }
    }

    /** Go's `WriteInt32(int32(length))`: the low four bytes of the length. */
    method WriteCastLength(length: nat)
      modifies this
      ensures Out() == AppendRaw(old(Out()), SignedBytes(length, 4))
    {
      bytes := bytes + SignedBytes(length, 4);
    }

    method WriteArrayLen(length: nat)
      modifies this
      ensures Out() == if length > MAX_INT32 then None else AppendRaw(old(Out()), SignedBytes(length, 4))
    {
      if length > MAX_INT32 {
        SetErr();
      } else {
        WriteCastLength(length);
      }
    }
  }

  // ------------------------------------------------------------------ reading

  class Reader {
    const bytes: Bytes
    var pos: nat

    constructor (data: Bytes)
      ensures bytes == data && pos == 0 && Valid()
    {
      bytes, pos := data, 0;
    }

    predicate Valid()
      reads this
    {
      pos <= |bytes|
    }

    function Remaining(): nat
      requires Valid()
      reads this
    {
      |bytes| - pos
    }

    /** The outcome of an integer read of `width` bytes that started at `start`. */
    predicate ReadInt(r: Option<int>, width: nat, start: nat)
      reads this
    {
      r == ParseInt(bytes, start, width) && pos == (if r.Some? then start + width else start)
    }

    method ReadInt8() returns (r: Option<Int8>)
      requires Valid()
      modifies this
      ensures Valid() && ReadInt(r, 1, old(pos))
      ensures r.None? ==> Parse(Int(1), bytes, old(pos)).None?
      ensures r.Some? ==> Parse(Int(1), bytes, old(pos)) == Some((IntV(r.value), pos))
    {
      PowValues();
      if Remaining() < 1 {
        return None;
      }
      SignedReverse(bytes[pos..pos + 1]);
      r := Some(Signed(bytes[pos..pos + 1]));
      pos := pos + 1;
    }

    method ReadInt16() returns (r: Option<Int16>)
      requires Valid()
      modifies this
      ensures Valid() && ReadInt(r, 2, old(pos))
      ensures r.None? ==> Parse(Int(2), bytes, old(pos)).None?
      ensures r.Some? ==> Parse(Int(2), bytes, old(pos)) == Some((IntV(r.value), pos))
    {
      PowValues();
      if Remaining() < 2 {
        return None;
      }
      SignedReverse(bytes[pos..pos + 2]);
      r := Some(Signed(bytes[pos..pos + 2]));
      pos := pos + 2;
    }

    method ReadInt32() returns (r: Option<Int32>)
      requires Valid()
      modifies this
      ensures Valid() && ReadInt(r, 4, old(pos))
      ensures r.None? ==> Parse(Int(4), bytes, old(pos)).None?
      ensures r.Some? ==> Parse(Int(4), bytes, old(pos)) == Some((IntV(r.value), pos))
    {
      PowValues();
      if Remaining() < 4 {
        return None;
      }
      SignedReverse(bytes[pos..pos + 4]);
      r := Some(Signed(bytes[pos..pos + 4]));
      pos := pos + 4;
    }

    method ReadInt64() returns (r: Option<Int64>)
      requires Valid()
      modifies this
      ensures Valid() && ReadInt(r, 8, old(pos))
      ensures r.None? ==> Parse(Int(8), bytes, old(pos)).None?
      ensures r.Some? ==> Parse(Int(8), bytes, old(pos)) == Some((IntV(r.value), pos))
    {
      PowValues();
      if Remaining() < 8 {
        return None;
      }
      SignedReverse(bytes[pos..pos + 8]);
      r := Some(Signed(bytes[pos..pos + 8]));
      pos := pos + 8;
    }

    method ReadBool() returns (r: Option<bool>)
      requires Valid()
      modifies this
      ensures Valid()
      ensures r.None? ==> Parse(Boolean, bytes, old(pos)).None?
      ensures r.Some? ==> Parse(Boolean, bytes, old(pos)) == Some((BoolV(r.value), pos))
    {
      var value := ReadInt8();
      if value == Some(0) {
        r := Some(false);
      } else if value == Some(1) {
        r := Some(true);
      } else {
        r := None;
      }
    }

    method ReadRawBytes(length: nat) returns (r: Option<Bytes>)
      requires Valid()
      modifies this
      ensures Valid()
      ensures if |bytes| < old(pos) + length then r.None? && pos == old(pos)
              else r == Some(bytes[old(pos)..old(pos) + length]) && pos == old(pos) + length
    {
      if Remaining() < length {
        return None;
      }
      r := Some(bytes[pos..pos + length]);
      pos := pos + length;
    }

    method ReadNullableString() returns (r: Option<Option<Bytes>>)
      requires Valid()
      modifies this
      ensures Valid()
      ensures r.None? ==> Parse(NullableString, bytes, old(pos)).None?
      ensures r.Some? ==> Parse(NullableString, bytes, old(pos)) == Some((BytesV(r.value), pos))
    {
      var length := ReadInt16();
      if length.None? {
        return None;
      }
      if length.value < 0 {
        return Some(None);
      }
      var raw := ReadRawBytes(length.value);
      if raw.None? || !ValidUtf8(raw.value) {
        return None;
      }
      r := Some(raw);
    }

    method ReadBytes() returns (r: Option<Option<Bytes>>)
      requires Valid()
      modifies this
      ensures Valid()
      ensures r.None? ==> Parse(NullableBytes, bytes, old(pos)).None?
      ensures r.Some? ==> Parse(NullableBytes, bytes, old(pos)) == Some((BytesV(r.value), pos))
    {
      var length := ReadInt32();
      if length.None? {
        return None;
      }
      if length.value < 0 {
        return Some(None);
      }
      var raw := ReadRawBytes(length.value);
      if raw.None? {
        return None;
      }
      r := Some(raw);
    }

    method ReadArrayLen() returns (r: Option<nat>)
      requires Valid()
      modifies this
      ensures Valid()
      ensures var n := ParseInt(bytes, old(pos), 4);
              if n.None? || n.value < 0 then r.None? else r == Some(n.value) && pos == old(pos) + 4
    {
      var length := ReadInt32();
      if length.None? || length.value < 0 {
        return None;
      }
      r := Some(length.value);
    }

    method ReadInt32Array() returns (r: Option<seq<Int32>>)
      requires Valid()
      modifies this
      ensures Valid()
      ensures r.None? ==> Parse(Array(Int(4)), bytes, old(pos)).None?
      ensures r.Some? ==> Parse(Array(Int(4)), bytes, old(pos)) == Some((Int32sV(r.value), pos))
    {
      ghost var start := pos;
      ArrayParses(Int(4), bytes, start);
      hide Parse, ParseMany;
      ManyParsesNone(Int(4), bytes, start + 4);
      var length := ReadArrayLen();
      if length.None? {
        return None;
      }
      var values: seq<Int32> := [];
      for i := 0 to length.value
        invariant Valid() && |values| == i
        invariant ParseMany(Int(4), bytes, start + 4, i) == Some((Int32sV(values).items, pos))
      {
        NextItem(Int(4), bytes, start, length.value, i, Int32sV(values).items, pos);
        var value := ReadInt32();
        if value.None? {
          return None;
        }
        Int32sGrow(values, value.value);
        values := values + [value.value];
      }
      r := Some(values);
    }
  }

  function Int32sV(values: seq<Int32>): (v: Value)
    ensures v.ArrayV? && |v.items| == |values|
  {
    ArrayV(seq(|values|, i requires 0 <= i < |values| => IntV(values[i])))
  }

  lemma Int32sGrow(values: seq<Int32>, value: Int32)
    ensures Int32sV(values + [value]).items == Int32sV(values).items + [IntV(value)]
  {}
}
