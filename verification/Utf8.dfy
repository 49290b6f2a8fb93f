/** What the strings of the protocol are: exactly the encodings of Unicode text, as sections 3 and 4 of
    RFC 3629 define them. */
module Utf8 {
  import opened Wire

  /** A Unicode scalar value: a code point that is no surrogate. */
  predicate Scalar(c: int) {
    0 <= c <= 0x10FFFF && !(0xD800 <= c <= 0xDFFF)
  }

  function Encode(c: int): (s: Bytes)
    requires Scalar(c)
    ensures 1 <= |s| <= 4
  {
    if c < 0x80 then [c]
    else if c < 0x800 then [0xC0 + c / 0x40, 0x80 + c % 0x40]
    else if c < 0x1_0000 then [0xE0 + c / 0x1000, 0x80 + c / 0x40 % 0x40, 0x80 + c % 0x40]
    else [0xF0 + c / 0x4_0000, 0x80 + c / 0x1000 % 0x40, 0x80 + c / 0x40 % 0x40, 0x80 + c % 0x40]
  }

  predicate IsText(text: seq<int>) {
    forall i :: 0 <= i < |text| ==> Scalar(text[i])
  }

  function EncodeAll(text: seq<int>): Bytes
    requires IsText(text)
  {
    if text == [] then [] else Encode(text[0]) + EncodeAll(text[1..])
  }

  /** The lead of a text is the encoding of its first character, whatever follows. */
  lemma LeadOfEncoded(c: int, rest: Bytes)
    requires Scalar(c)
    ensures Utf8Lead(Encode(c) + rest) == |Encode(c)|
  {
    var s := Encode(c) + rest;
    if c < 0x80 {
      assert s[0] == c;
    } else if c < 0x800 {
      assert s[0] == 0xC0 + c / 0x40 && s[1] == 0x80 + c % 0x40;
    } else if c < 0x1_0000 {
      assert s[0] == 0xE0 + c / 0x1000 && s[1] == 0x80 + c / 0x40 % 0x40 && s[2] == 0x80 + c % 0x40;
      ThreeBytes(c);
    } else {
      assert s[0] == 0xF0 + c / 0x4_0000 && s[1] == 0x80 + c / 0x1000 % 0x40;
      assert s[2] == 0x80 + c / 0x40 % 0x40 && s[3] == 0x80 + c % 0x40;
      FourBytes(c);
    }
  }

  lemma ThreeBytes(c: int)
    requires Scalar(c) && 0x800 <= c < 0x1_0000
    ensures Utf8Second3(0xE0 + c / 0x1000, 0x80 + c / 0x40 % 0x40)
  {}

  lemma FourBytes(c: int)
    requires Scalar(c) && 0x1_0000 <= c
    ensures Utf8Second4(0xF0 + c / 0x4_0000, 0x80 + c / 0x1000 % 0x40)
  {}

  /** Every lead is the encoding of a character. */
  lemma LeadDecodes(s: Bytes) returns (c: int)
    requires Utf8Lead(s) > 0
    ensures Scalar(c) && Encode(c) == s[..Utf8Lead(s)]
  {
    var n := Utf8Lead(s);
    hide Encode;
    if n == 1 {
      c := s[0];
      One(s[0]);
      assert s[..1] == [s[0]];
    } else if n == 2 {
      c := Two(s[0], s[1]);
      assert s[..2] == [s[0], s[1]];
    } else if n == 3 {
      c := Three(s[0], s[1], s[2]);
      assert s[..3] == [s[0], s[1], s[2]];
    } else {
      c := Four(s[0], s[1], s[2], s[3]);
      assert s[..4] == [s[0], s[1], s[2], s[3]];
    }
  }

  lemma One(b: Byte)
    requires b < 0x80
    ensures Encode(b) == [b]
  {}

  lemma Two(b0: int, b1: int) returns (c: int)
    requires 0xC2 <= b0 <= 0xDF && 0x80 <= b1 <= 0xBF
    ensures Scalar(c) && Encode(c) == [b0, b1]
  {
    c := (b0 - 0xC0) * 0x40 + (b1 - 0x80);
  }

  lemma Three(b0: Byte, b1: Byte, b2: int) returns (c: int)
    requires Utf8Second3(b0, b1) && 0x80 <= b2 <= 0xBF
    ensures Scalar(c) && Encode(c) == [b0, b1, b2]
  {
    var x: int, y: int := b0, b1;
    c := (x - 0xE0) * 0x1000 + (y - 0x80) * 0x40 + (b2 - 0x80);
    Digits(x - 0xE0, y - 0x80, b2 - 0x80);
  }

  lemma Four(b0: Byte, b1: Byte, b2: int, b3: int) returns (c: int)
    requires Utf8Second4(b0, b1) && 0x80 <= b2 <= 0xBF && 0x80 <= b3 <= 0xBF
    ensures Scalar(c) && Encode(c) == [b0, b1, b2, b3]
  {
    var x: int, y: int := b0, b1;
    c := (x - 0xF0) * 0x4_0000 + (y - 0x80) * 0x1000 + (b2 - 0x80) * 0x40 + (b3 - 0x80);
    Digits((x - 0xF0) * 0x40 + (y - 0x80), b2 - 0x80, b3 - 0x80);
  }

  lemma Digits(a: int, b: int, d: int)
    requires 0 <= a && 0 <= b < 0x40 && 0 <= d < 0x40
    ensures var c := a * 0x1000 + b * 0x40 + d; c / 0x1000 == a && c / 0x40 % 0x40 == b && c % 0x40 == d
  {
    assert (a * 0x1000 + b * 0x40 + d) / 0x40 == a * 0x40 + b;
  }

  lemma {:induction false} EncodedIsValid(text: seq<int>)
    requires IsText(text)
    ensures ValidUtf8(EncodeAll(text))
  {
    if text != [] {
      EncodedIsValid(text[1..]);
      LeadOfEncoded(text[0], EncodeAll(text[1..]));
      assert EncodeAll(text)[|Encode(text[0])|..] == EncodeAll(text[1..]);
      hide Utf8Lead, Encode;
    }
  }

  lemma OneMore(c: int, rest: seq<int>)
    requires Scalar(c) && IsText(rest)
    ensures IsText([c] + rest) && EncodeAll([c] + rest) == Encode(c) + EncodeAll(rest)
  {
    assert ([c] + rest)[1..] == rest;
  }

  lemma {:induction false} ValidDecodes(s: Bytes) returns (text: seq<int>)
    requires ValidUtf8(s)
    ensures IsText(text) && EncodeAll(text) == s
    decreases |s|
  {
    hide *;
    if s == [] {
      text := [];
      NoText();
    } else {
      ValidStep(s);
      var n := Utf8Lead(s);
      var c := LeadDecodes(s);
      var rest := ValidDecodes(s[n..]);
      text := [c] + rest;
      OneMore(c, rest);
      assert s == s[..n] + s[n..];
    }
  }

  lemma NoText()
    ensures IsText([]) && EncodeAll([]) == []
  {}

  lemma ValidStep(s: Bytes)
    requires ValidUtf8(s) && s != []
    ensures Utf8Lead(s) > 0 && ValidUtf8(s[Utf8Lead(s)..])
  {}

  /** A string is accepted if and only if it is the encoding of a text: overlong forms, surrogates and
      code points above 0x10FFFF are refused, and nothing else is. */
  lemma ValidIsText(s: Bytes)
    ensures ValidUtf8(s) <==> exists text :: IsText(text) && EncodeAll(text) == s
  {
    if ValidUtf8(s) {
      var text := ValidDecodes(s);
    }
    if text :| IsText(text) && EncodeAll(text) == s {
      EncodedIsValid(text);
    }
  }
}
