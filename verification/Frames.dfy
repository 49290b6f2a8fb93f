/** Frames on the wire (internal/transport/frame.go): length-prefixed, read one after the other from
    a byte stream. */
module Frames {
  import opened Wrappers
  import opened Wire
  import opened Binary
  import opened Responses

  const PREFIX := 4

  function FrameBytes(payload: Bytes): (s: Bytes)
    ensures |s| == PREFIX + |payload|
  {
    BigEndian(|payload|, PREFIX) + payload
  }

  lemma LengthReadsBack(n: nat)
    requires n <= MAX_INT32
    ensures Unsigned(BigEndian(n, 4)) == n
  {
    PowValues();
    UnsignedOfBigEndian(n, 4);
  }

  /** An encoded header and a body; refused when the length does not fit 31 bits. */
  method EncodeRequestFrame(header: Bytes, body: Bytes) returns (frame: Option<Bytes>)
    ensures frame == if |header| + |body| > MAX_INT32 then None else Some(FrameBytes(header + body))
    ensures frame.None? <==> |header| + |body| > 0x7FFF_FFFF
    ensures frame.Some? ==>
              |frame.value| == 4 + |header| + |body| && Unsigned(frame.value[..4]) == |header| + |body|
              && frame.value[4..] == header + body
  {
    var frameLength := |header| + |body|;
    if frameLength > MAX_INT32 {
      return None;
    }
    LengthReadsBack(frameLength);
    frame := Some(BigEndian(frameLength, PREFIX) + header + body);
    assert BigEndian(frameLength, PREFIX) + header + body == BigEndian(frameLength, PREFIX) + (header + body);
  }

  /** The frame at the front of a stream, unless it is incomplete or longer than `max`. */
  function Front(stream: Bytes, max: nat): (frame: Option<Bytes>)
    ensures frame.Some? ==> PREFIX + |frame.value| <= |stream| && |frame.value| <= max
  {
    if |stream| < PREFIX then None
    else
      var n := Unsigned(stream[..PREFIX]);
      if n > max || |stream| < PREFIX + n then None else Some(stream[PREFIX..PREFIX + n])
  }

  /** What the reader gets out of a stream before its first error. */
  function Frames(stream: Bytes, max: nat): seq<Bytes>
    decreases |stream|
  {
    var frame := Front(stream, max);
    if frame.None? then [] else [frame.value] + Frames(stream[PREFIX + |frame.value|..], max)
  }

  /** A frame is read back whole, whatever follows it, exactly when it is not too long. */
  lemma FrameReadBack(payload: Bytes, rest: Bytes, max: nat)
    requires |payload| <= MAX_INT32
    ensures Front(FrameBytes(payload) + rest, max) == if |payload| <= max then Some(payload) else None
    ensures (FrameBytes(payload) + rest)[PREFIX + |payload|..] == rest
  {
    PowValues();
    UnsignedOfBigEndian(|payload|, PREFIX);
    var stream := FrameBytes(payload) + rest;
    assert stream[..PREFIX] == BigEndian(|payload|, PREFIX);
    assert stream[PREFIX..PREFIX + |payload|] == payload;
  }

  function Stream(payloads: seq<Bytes>): Bytes {
    if payloads == [] then [] else FrameBytes(payloads[0]) + Stream(payloads[1..])
  }

  lemma FirstFrame(payload: Bytes, rest: Bytes, max: nat)
    requires |payload| <= MAX_INT32 && |payload| <= max
    ensures Frames(FrameBytes(payload) + rest, max) == [payload] + Frames(rest, max)
  {
    FrameReadBack(payload, rest, max);
    hide Front, FrameBytes;
  }

  lemma StreamUnfolds(payloads: seq<Bytes>, rest: Bytes)
    ensures payloads == [] ==> Stream(payloads) + rest == rest
    ensures payloads != [] ==>
              Stream(payloads) + rest == FrameBytes(payloads[0]) + (Stream(payloads[1..]) + rest)
  {
    hide FrameBytes;
  }

  lemma Regrouped(payloads: seq<Bytes>, tail: seq<Bytes>)
    ensures payloads == [] ==> payloads + tail == tail
    ensures payloads != [] ==> payloads + tail == [payloads[0]] + (payloads[1..] + tail)
  {}

  /** A stream of frames is cut where it was joined: the reader gets exactly the payloads, in order,
      and then what follows them. */
  lemma {:induction false} StreamIsCut(payloads: seq<Bytes>, rest: Bytes, max: nat)
    requires forall i :: 0 <= i < |payloads| ==> |payloads[i]| <= MAX_INT32 && |payloads[i]| <= max
    ensures Frames(Stream(payloads) + rest, max) == payloads + Frames(rest, max)
  {
    hide *;
    StreamUnfolds(payloads, rest);
    Regrouped(payloads, Frames(rest, max));
    if payloads != [] {
      FirstFrame(payloads[0], Stream(payloads[1..]) + rest, max);
      StreamIsCut(payloads[1..], rest, max);
    }
  }

  /** A frame that is too long ends the reading; nothing after it is read. */
  lemma LongFrameEnds(payloads: seq<Bytes>, long: Bytes, rest: Bytes, max: nat)
    requires forall i :: 0 <= i < |payloads| ==> |payloads[i]| <= MAX_INT32 && |payloads[i]| <= max
    requires max < |long| <= MAX_INT32
    ensures Frames(Stream(payloads) + (FrameBytes(long) + rest), max) == payloads
  {
    FrameReadBack(long, rest, max);
    assert Frames(FrameBytes(long) + rest, max) == [];
    hide Frames, Stream, Front;
    StreamIsCut(payloads, FrameBytes(long) + rest, max);
    assert payloads + [] == payloads;
  }

  lemma NextFrame(stream: Bytes, rest: Bytes, max: nat)
    requires Front(stream, max).Some? && rest == stream[PREFIX + |Front(stream, max).value|..]
    ensures Frames(stream, max) == [Front(stream, max).value] + Frames(rest, max)
  {
    hide Front;
  }

  lemma NoFrame(frames: seq<Bytes>, stream: Bytes, max: nat)
    requires Front(stream, max).None?
    ensures frames + Frames(stream, max) == frames
  {
    hide Front;
  }

  lemma Appended(frames: seq<Bytes>, frame: Bytes, rest: seq<Bytes>)
    ensures frames + ([frame] + rest) == (frames + [frame]) + rest
  {}

  /** A source of bytes that ends. */
  class Source {
    const data: Bytes
    var pos: nat

    constructor (data: Bytes)
      ensures this.data == data && pos == 0
    {
      this.data, pos := data, 0;
    }

    /** Fills a buffer of `n` bytes, or fails. */
    method ReadFull(n: nat) returns (buffer: Option<Bytes>)
      requires pos <= |data|
      modifies this`pos
      ensures pos <= |data|
      ensures if old(pos) + n <= |data| then buffer == Some(data[old(pos)..old(pos) + n]) && pos == old(pos) + n
              else buffer.None?
    {
      if |data| < pos + n {
        return None;
      }
      buffer := Some(data[pos..pos + n]);
      pos := pos + n;
    }

    method ReadFrame(max: nat) returns (frame: Option<Bytes>)
      requires pos <= |data|
      modifies this`pos
      ensures pos <= |data| && frame == Front(data[old(pos)..], max)
      ensures frame.Some? ==>
                && pos == old(pos) + 4 + |frame.value| && |frame.value| == Unsigned(data[old(pos)..old(pos) + 4])
                && frame.value == data[old(pos) + 4..pos]
      ensures frame.Some? <==>
                && old(pos) + 4 <= |data| && Unsigned(data[old(pos)..old(pos) + 4]) <= max
                && old(pos) + 4 + Unsigned(data[old(pos)..old(pos) + 4]) <= |data|
    {
      var prefix := ReadFull(PREFIX);
      ghost var stream := data[old(pos)..];
      if prefix.None? {
        return None;
      }
      assert prefix.value == stream[..PREFIX];
      assert data[old(pos)..old(pos) + 4] == stream[..PREFIX];
      var frameLength := Unsigned(prefix.value);
      if frameLength > max {
        return None;
      }
      frame := ReadFull(frameLength);
      assert frame.Some? ==> frame.value == stream[PREFIX..PREFIX + frameLength];
    }

    /** The reading loop, without what is done with the frames. */
    method ReadAll(max: nat) returns (frames: seq<Bytes>)
      requires pos <= |data|
      modifies this`pos
      ensures frames == Frames(data[old(pos)..], max)
    {
      frames := [];
      hide Front, Frames;
      Regrouped([], Frames(data[pos..], max));
      while true
        invariant old(pos) <= pos <= |data|
        invariant Frames(data[old(pos)..], max) == frames + Frames(data[pos..], max)
        decreases |data| - pos
      {
        ghost var start := pos;
        var frame := ReadFrame(max);
        if frame.None? {
          NoFrame(frames, data[start..], max);
          return;
        }
        NextFrame(data[start..], data[pos..], max);
        Appended(frames, frame.value, Frames(data[pos..], max));
        frames := frames + [frame.value];
      }
    }
  }

  datatype ResponseHeader = ResponseHeader(correlationId: Int32, headerVersion: Int16, errorCode: Int16, throttleTimeMs: Int32)

  /** The header is the first 12 bytes of the frame and the body is all the rest. */
  method DecodeResponseFrame(frame: Bytes) returns (r: Option<(ResponseHeader, Bytes)>)
    ensures r.Some? <==> |frame| >= 12
    ensures r.Some? ==>
              && r.value.0.correlationId == Signed(frame[0..4]) && r.value.0.headerVersion == Signed(frame[4..6])
              && (var code := Signed(frame[6..8]); -0x8000 <= code < 0x8000 && r.value.0.errorCode == ErrorCodeFromCode(code))
              && r.value.0.throttleTimeMs == Signed(frame[8..12])
              && r.value.1 == frame[12..]
  {
    hide Parse, Signed;
    var reader := new Reader(frame);
    var correlationId := reader.ReadInt32();
    if correlationId.None? { return None; }
    var headerVersion := reader.ReadInt16();
    if headerVersion.None? { return None; }
    var errorCode := reader.ReadInt16();
    if errorCode.None? { return None; }
    var throttleTimeMs := reader.ReadInt32();
    if throttleTimeMs.None? { return None; }
    var body := reader.ReadRawBytes(reader.Remaining());
    var header := ResponseHeader(correlationId.value, headerVersion.value, ErrorCodeFromCode(errorCode.value),
                                 throttleTimeMs.value);
    r := Some((header, body.value));
  }
}
