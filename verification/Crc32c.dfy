/** CRC32C, the Castagnoli checksum of section 12.1 of RFC 3720, and what it detects.

    The register is processed least significant bit first, so the polynomial stands
    bit-reversed.  The proofs work with the few algebraic laws stated first and keep the
    bit-vector operations themselves hidden. */
module Crc32c {
  import opened Wire

  const POLYNOMIAL: bv32 := 0x82F6_3B78

  function Xor(x: bv32, y: bv32): bv32 { x ^ y }

  /** `c` moved up by one byte. */
  function Up(c: bv32): bv32 { c << 8 }

  function Half(c: bv32): bv32 { c >> 1 }

  function Feedback(c: bv32): bv32 {
    if c & 1 == 1 then POLYNOMIAL else 0
  }

  /** One bit of polynomial division. */
  function Step(c: bv32): bv32 {
    Xor(Half(c), Feedback(c))
  }

  function Step8(c: bv32): bv32 {
    Step(Step(Step(Step(Step(Step(Step(Step(c))))))))
  }

  /** The `k` low bits of `n`. */
  function Bits(n: nat, k: nat): bv32 {
    if k == 0 then 0 else PushBit(Bits(n / 2, k - 1), n % 2 == 1)
  }

  function PushBit(c: bv32, bit: bool): bv32 {
    (c << 1) | (if bit then 1 else 0)
  }

  function Register(b: Byte): bv32 {
    Bits(b, 8)
  }

  function Feed(c: bv32, b: Byte): bv32 {
    Step8(Xor(c, Register(b)))
  }

  /** The register after feeding `data` to it. */
  function Update(c: bv32, data: Bytes): bv32 {
    if data == [] then c else Feed(Update(c, data[..|data| - 1]), data[|data| - 1])
  }

  function Checksum(data: Bytes): bv32 {
    Xor(Update(0xFFFF_FFFF, data), 0xFFFF_FFFF)
  }

  /** `int32(checksum)`: the field that carries the checksum. */
  function ChecksumField(data: Bytes): Int32 {
    AsInt32(Checksum(data))
  }

  function AsNat(c: bv32): (n: int)
    ensures 0 <= n < 0x1_0000_0000
  {
    c as int
  }

  function AsInt32(c: bv32): Int32 {
    var n := AsNat(c);
    if n >= 0x8000_0000 then n - 0x1_0000_0000 else n
  }

  // ------------------------------------------------------- laws of the operations

  lemma XorCancels(x: bv32, y: bv32, r: bv32)
    requires Xor(x, r) == Xor(y, r)
    ensures x == y
  {}

  lemma XorCommutes(x: bv32, y: bv32)
    ensures Xor(x, y) == Xor(y, x)
  {}

  lemma XorAssociates(x: bv32, y: bv32, z: bv32)
    ensures Xor(Xor(x, y), z) == Xor(x, Xor(y, z))
  {}

  lemma StepInjective(x: bv32, y: bv32)
    requires Step(x) == Step(y)
    ensures x == y
  {}

  lemma StepLinear(x: bv32, y: bv32)
    ensures Step(Xor(x, y)) == Xor(Step(x), Step(y))
  {
    hide Xor, Half, Feedback;
    HalfLinear(x, y);
    FeedbackLinear(x, y);
    Exchange(Half(x), Half(y), Feedback(x), Feedback(y));
  }

  lemma HalfLinear(x: bv32, y: bv32)
    ensures Half(Xor(x, y)) == Xor(Half(x), Half(y))
  {}

  lemma FeedbackLinear(x: bv32, y: bv32)
    ensures Feedback(Xor(x, y)) == Xor(Feedback(x), Feedback(y))
  {
    assert (x ^ y) & 1 == 1 <==> (x & 1 == 1) != (y & 1 == 1);
  }

  lemma Exchange(a: bv32, b: bv32, c: bv32, d: bv32)
    ensures Xor(Xor(a, b), Xor(c, d)) == Xor(Xor(a, c), Xor(b, d))
  {
    hide Xor;
    XorAssociates(a, b, Xor(c, d));
    XorAssociates(b, c, d);
    XorCommutes(b, c);
    XorAssociates(c, b, d);
    XorAssociates(a, c, Xor(b, d));
  }

  lemma Step8Injective(x: bv32, y: bv32)
    requires Step8(x) == Step8(y)
    ensures x == y
  {
    hide Step;
    StepInjective(Step(Step(Step(Step(Step(Step(Step(x))))))), Step(Step(Step(Step(Step(Step(Step(y))))))));
    StepInjective(Step(Step(Step(Step(Step(Step(x)))))), Step(Step(Step(Step(Step(Step(y)))))));
    StepInjective(Step(Step(Step(Step(Step(x))))), Step(Step(Step(Step(Step(y))))));
    StepInjective(Step(Step(Step(Step(x)))), Step(Step(Step(Step(y)))));
    StepInjective(Step(Step(Step(x))), Step(Step(Step(y))));
    StepInjective(Step(Step(x)), Step(Step(y)));
    StepInjective(Step(x), Step(y));
    StepInjective(x, y);
  }

  lemma Step8Linear(x: bv32, y: bv32)
    ensures Step8(Xor(x, y)) == Xor(Step8(x), Step8(y))
  {
    hide Step, Xor;
    StepLinear(x, y);
    StepLinear(Step(x), Step(y));
    StepLinear(Step(Step(x)), Step(Step(y)));
    StepLinear(Step(Step(Step(x))), Step(Step(Step(y))));
    StepLinear(Step(Step(Step(Step(x)))), Step(Step(Step(Step(y)))));
    StepLinear(Step(Step(Step(Step(Step(x))))), Step(Step(Step(Step(Step(y))))));
    StepLinear(Step(Step(Step(Step(Step(Step(x)))))), Step(Step(Step(Step(Step(Step(y)))))));
    StepLinear(Step(Step(Step(Step(Step(Step(Step(x))))))), Step(Step(Step(Step(Step(Step(Step(y))))))));
  }

  /** Eight steps bring a register whose low byte is zero down by one byte. */
  lemma Step8Shifts(c: bv32)
    requires c & 0xFF == 0
    ensures Step8(c) == c >> 8
  {}

  predicate IsByte(r: bv32) { r & 0xFF == r }

  /** The first register that does not fit in `k` bits. */
  function Limit(k: nat): bv32 {
    if k == 0 then 1 else PushBit(Limit(k - 1), false)
  }

  function Power(k: nat): nat {
    if k == 0 then 1 else 2 * Power(k - 1)
  }

  lemma {:induction false} BitsBound(n: nat, k: nat)
    requires k <= 8
    ensures Bits(n, k) < Limit(k) <= 256
  {
    hide PushBit;
    if k > 0 {
      BitsBound(n / 2, k - 1);
      LimitBound(k - 1);
      LimitBound(k);
      PushBound(Bits(n / 2, k - 1), Limit(k - 1), n % 2 == 1);
    }
  }

  lemma LimitBound(k: nat)
    requires k <= 8
    ensures 1 <= Limit(k) <= 256 && (k < 8 ==> Limit(k) <= 128)
  {
    assert Limit(1) == 2 && Limit(2) == 4 && Limit(3) == 8 && Limit(4) == 16;
    assert Limit(5) == 32 && Limit(6) == 64 && Limit(7) == 128 && Limit(8) == 256;
  }

  lemma PushBound(c: bv32, limit: bv32, bit: bool)
    requires c < limit <= 128
    ensures PushBit(c, bit) < PushBit(limit, false)
  {}

  lemma PushInjective(c: bv32, d: bv32, x: bool, y: bool)
    requires c < 256 && d < 256 && PushBit(c, x) == PushBit(d, y)
    ensures c == d && x == y
  {}

  lemma {:induction false} BitsInjective(m: nat, n: nat, k: nat)
    requires k <= 8 && m < Power(k) && n < Power(k) && Bits(m, k) == Bits(n, k)
    ensures m == n
  {
    hide PushBit;
    if k > 0 {
      BitsSmall(m / 2, k - 1);
      BitsSmall(n / 2, k - 1);
      PushInjective(Bits(m / 2, k - 1), Bits(n / 2, k - 1), m % 2 == 1, n % 2 == 1);
      BitsInjective(m / 2, n / 2, k - 1);
    }
  }

  lemma BitsSmall(n: nat, k: nat)
    requires k <= 8
    ensures Bits(n, k) < 256 && IsByte(Bits(n, k))
  {
    hide Bits, Limit, IsByte;
    BitsBound(n, k);
    Below256(Bits(n, k), Limit(k));
  }

  lemma Below256(c: bv32, limit: bv32)
    requires c < limit <= 256
    ensures c < 256 && IsByte(c)
  {}

  lemma RegisterIsByte(b: Byte)
    ensures IsByte(Register(b))
  {
    BitsSmall(b, 8);
  }

  lemma RegisterInjective(a: Byte, b: Byte)
    requires Register(a) == Register(b)
    ensures a == b
  {
    hide Bits;
    assert Power(4) == 16 && Power(8) == 256;
    BitsInjective(a, b, 8);
  }

  lemma AsInt32Injective(x: bv32, y: bv32)
    requires AsInt32(x) == AsInt32(y)
    ensures x == y
  {
    hide AsNat;
    AsNatInjective(x, y);
  }

  lemma AsNatInjective(x: bv32, y: bv32)
    ensures AsNat(x) == AsNat(y) ==> x == y
  {
    assert (x as int) as bv32 == x;
    assert (y as int) as bv32 == y;
  }

  // ------------------------------------------------------- four bytes are one word

  function Word(r0: bv32, r1: bv32, r2: bv32, r3: bv32): bv32 {
    Xor(Xor(Xor(r0, Up(r1)), Up(Up(r2))), Up(Up(Up(r3))))
  }

  lemma WordInjective(a0: bv32, a1: bv32, a2: bv32, a3: bv32, b0: bv32, b1: bv32, b2: bv32, b3: bv32)
    requires IsByte(a0) && IsByte(a1) && IsByte(a2) && IsByte(a3)
    requires IsByte(b0) && IsByte(b1) && IsByte(b2) && IsByte(b3)
    requires Word(a0, a1, a2, a3) == Word(b0, b1, b2, b3)
    ensures a0 == b0 && a1 == b1 && a2 == b2 && a3 == b3
  {}

  function Step32(c: bv32): bv32 { Step8(Step8(Step8(Step8(c)))) }

  lemma MovedUp(r: bv32)
    requires IsByte(r)
    ensures Step8(Up(r)) == r && Step8(Up(Up(r))) == Up(r) && Step8(Up(Up(Up(r)))) == Up(Up(r))
  {
    Step8Shifts(Up(r));
    Step8Shifts(Up(Up(r)));
    Step8Shifts(Up(Up(Up(r))));
  }

  /** Feeding four bytes is feeding one 32-bit word. */
  lemma FeedFour(c: bv32, r0: bv32, r1: bv32, r2: bv32, r3: bv32)
    requires IsByte(r1) && IsByte(r2) && IsByte(r3)
    ensures Step8(Xor(Step8(Xor(Step8(Xor(Step8(Xor(c, r0)), r1)), r2)), r3))
         == Step32(Xor(c, Word(r0, r1, r2, r3)))
  {
    hide Step8, Xor, Up, IsByte;
    MovedUp(r1);
    MovedUp(r2);
    MovedUp(r3);
    var w0 := Xor(c, r0);
    var w1 := Xor(w0, Up(r1));
    var w2 := Xor(w1, Up(Up(r2)));
    var w3 := Xor(w2, Up(Up(Up(r3))));
    Step8Linear(w0, Up(r1));
    Step8Linear(w1, Up(Up(r2)));
    Step8Linear(Step8(w1), Up(r2));
    Step8Linear(w2, Up(Up(Up(r3))));
    Step8Linear(Step8(w2), Up(Up(r3)));
    Step8Linear(Step8(Step8(w2)), Up(r3));
    XorAssociates(c, Xor(Xor(r0, Up(r1)), Up(Up(r2))), Up(Up(Up(r3))));
    XorAssociates(c, Xor(r0, Up(r1)), Up(Up(r2)));
    XorAssociates(c, r0, Up(r1));
  }

  // -------------------------------------------------------------- error detection

  lemma {:induction false} UpdateConcat(c: bv32, d: Bytes, e: Bytes)
    ensures Update(c, d + e) == Update(Update(c, d), e)
  {
    hide Feed;
    if e == [] {
      assert d + e == d;
    } else {
      assert (d + e)[..|d + e| - 1] == d + e[..|e| - 1];
      UpdateConcat(c, d, e[..|e| - 1]);
    }
  }

  /** Equal suffixes keep unequal registers unequal. */
  lemma {:induction false} UpdateInjective(c: bv32, c': bv32, d: Bytes)
    requires Update(c, d) == Update(c', d)
    ensures c == c'
  {
    hide Step8, Xor, Register;
    if d != [] {
      var x, y, r := Update(c, d[..|d| - 1]), Update(c', d[..|d| - 1]), Register(d[|d| - 1]);
      Step8Injective(Xor(x, r), Xor(y, r));
      XorCancels(x, y, r);
      UpdateInjective(c, c', d[..|d| - 1]);
    }
  }

  lemma UpdateFour(c: bv32, d: Bytes)
    requires |d| == 4
    ensures Update(c, d)
         == Step32(Xor(c, Word(Register(d[0]), Register(d[1]), Register(d[2]), Register(d[3]))))
  {
    hide Step8, Step32, Xor, Word, Register, IsByte;
    RegisterIsByte(d[1]);
    RegisterIsByte(d[2]);
    RegisterIsByte(d[3]);
    FeedFour(c, Register(d[0]), Register(d[1]), Register(d[2]), Register(d[3]));
    assert d[..3][..2] == d[..2] && d[..2][..1] == d[..1] && d[..1][..0] == [];
    assert Update(c, d[..1]) == Feed(c, d[0]);
    assert Update(c, d[..2]) == Feed(Update(c, d[..1]), d[1]);
    assert Update(c, d[..3]) == Feed(Update(c, d[..2]), d[2]);
  }

  lemma WindowInjective(c: bv32, d: Bytes, e: Bytes)
    requires |d| == 4 && |e| == 4 && Update(c, d) == Update(c, e)
    ensures d == e
  {
    hide Update, Step8, Xor, Word, Register;
    UpdateFour(c, d);
    UpdateFour(c, e);
    var v := Word(Register(d[0]), Register(d[1]), Register(d[2]), Register(d[3]));
    var w := Word(Register(e[0]), Register(e[1]), Register(e[2]), Register(e[3]));
    var x, y := Xor(c, v), Xor(c, w);
    Step8Injective(Step8(Step8(Step8(x))), Step8(Step8(Step8(y))));
    Step8Injective(Step8(Step8(x)), Step8(Step8(y)));
    Step8Injective(Step8(x), Step8(y));
    Step8Injective(x, y);
    XorCommutes(c, v);
    XorCommutes(c, w);
    XorCancels(v, w, c);
    BytesOfWord(d, e);
  }

  lemma BytesOfWord(d: Bytes, e: Bytes)
    requires |d| == 4 && |e| == 4
    requires Word(Register(d[0]), Register(d[1]), Register(d[2]), Register(d[3]))
          == Word(Register(e[0]), Register(e[1]), Register(e[2]), Register(e[3]))
    ensures d == e
  {
    hide Word, Register, IsByte;
    forall i | 0 <= i < 4
      ensures IsByte(Register(d[i])) && IsByte(Register(e[i]))
    {
      RegisterIsByte(d[i]);
      RegisterIsByte(e[i]);
    }
    WordInjective(Register(d[0]), Register(d[1]), Register(d[2]), Register(d[3]),
                  Register(e[0]), Register(e[1]), Register(e[2]), Register(e[3]));
    RegisterInjective(d[0], e[0]);
    RegisterInjective(d[1], e[1]);
    RegisterInjective(d[2], e[2]);
    RegisterInjective(d[3], e[3]);
  }

  /** Two byte strings that differ, but only inside one window of four consecutive bytes, have
      different checksums. */
  lemma ChecksumDetects(d: Bytes, e: Bytes, i: nat)
    requires |d| == |e| && i + 4 <= |d| && d != e
    requires d[..i] == e[..i] && d[i + 4..] == e[i + 4..]
    ensures ChecksumField(d) != ChecksumField(e)
  {
    hide Update, Xor, AsInt32;
    var init: bv32 := 0xFFFF_FFFF;
    var start := Update(init, d[..i]);
    var dw, ew, rest := d[i..i + 4], e[i..i + 4], d[i + 4..];
    assert d == d[..i] + dw + rest && e == d[..i] + ew + rest;
    UpdateConcat(init, d[..i], dw);
    UpdateConcat(init, d[..i] + dw, rest);
    UpdateConcat(init, d[..i], ew);
    UpdateConcat(init, d[..i] + ew, rest);
    if ChecksumField(d) == ChecksumField(e) {
      AsInt32Injective(Checksum(d), Checksum(e));
      XorCancels(Update(init, d), Update(init, e), init);
      UpdateInjective(Update(start, dw), Update(start, ew), rest);
      WindowInjective(start, dw, ew);
      assert false;
    }
  }
}
