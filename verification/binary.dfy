/** Fixed-width integers, byte strings and the bit operations the server applies
    to them. Bytes are integers in [0, 256); fixed-width signed integers are
    integer ranges, and the C# casts between widths are written out as
    explicit two's-complement wrap-around. */
module Binary {

  type byte = b: int | 0 <= b < 256
  type Bytes = seq<byte>

  type Int8 = x: int | -0x80 <= x < 0x80
  type Int16 = x: int | -0x8000 <= x < 0x8000
  type Int32 = x: int | -0x8000_0000 <= x < 0x8000_0000
  type Int64 = x: int | -0x8000_0000_0000_0000 <= x < 0x8000_0000_0000_0000

  /** IEEE-754 single and double precision values, kept as their bit patterns. */
  type Bits32 = n: int | 0 <= n < 0x1_0000_0000
  type Bits64 = n: int | 0 <= n < 0x1_0000_0000_0000_0000

  /** A .NET string: a sequence of UTF-16 code units. */
  type CodeUnit = u: int | 0 <= u < 0x1_0000
  type Text = seq<CodeUnit>

  /** A value or the absence of one: a C# null reference, or a read that threw. */
  datatype Option<+T> = None | Some(value: T) {
    predicate IsFailure() {
      None?
    }

    function PropagateFailure<U>(): Option<U>
      requires None?
    {
      None
    }

    function Extract(): T
      requires Some?
    {
      value
    }
  }

  // ---------------------------------------------------------------------------
  // Unsigned big-endian and little-endian byte strings
  // ---------------------------------------------------------------------------

  function Pow256(w: nat): (r: nat)
    ensures r >= 1
  {
    if w == 0 then 1 else 256 * Pow256(w - 1)
  }

  /** The w-byte big-endian representation of n, most significant byte first. */
  function ToBigEndian(n: nat, w: nat): (r: Bytes)
    requires n < Pow256(w)
    ensures |r| == w
  {
    if w == 0 then [] else ToBigEndian(n / 256, w - 1) + [n % 256]
  }

  /** The unsigned number a big-endian byte string denotes. */
  function FromBigEndian(bs: Bytes): (n: nat)
    ensures n < Pow256(|bs|)
  {
    if |bs| == 0 then 0 else FromBigEndian(bs[..|bs| - 1]) * 256 + bs[|bs| - 1]
  }

  lemma {:induction false} FromToBigEndian(n: nat, w: nat)
    requires n < Pow256(w)
    ensures FromBigEndian(ToBigEndian(n, w)) == n
  {
    if w > 0 {
      var r := ToBigEndian(n, w);
      assert r[..w - 1] == ToBigEndian(n / 256, w - 1);
      FromToBigEndian(n / 256, w - 1);
    }
  }

  lemma {:induction false} ToFromBigEndian(bs: Bytes)
    ensures ToBigEndian(FromBigEndian(bs), |bs|) == bs
  {
    if |bs| > 0 {
      var p := bs[..|bs| - 1];
      ToFromBigEndian(p);
      assert bs == p + [bs[|bs| - 1]];
    }
  }

  function Reverse(bs: Bytes): (r: Bytes)
    ensures |r| == |bs|
    ensures forall i :: 0 <= i < |bs| ==> r[i] == bs[|bs| - 1 - i]
  {
    if |bs| == 0 then [] else Reverse(bs[1..]) + [bs[0]]
  }

  lemma ReverseReverse(bs: Bytes)
    ensures Reverse(Reverse(bs)) == bs
  {
  }

  /** The w-byte little-endian representation of n (what a native
      BinaryWriter emits on a little-endian machine). */
  function ToLittleEndian(n: nat, w: nat): (r: Bytes)
    requires n < Pow256(w)
    ensures |r| == w
  {
    Reverse(ToBigEndian(n, w))
  }

  function FromLittleEndian(bs: Bytes): (n: nat)
    ensures n < Pow256(|bs|)
  {
    FromBigEndian(Reverse(bs))
  }

  lemma FromToLittleEndian(n: nat, w: nat)
    requires n < Pow256(w)
    ensures FromLittleEndian(ToLittleEndian(n, w)) == n
  {
    ReverseReverse(ToBigEndian(n, w));
    FromToBigEndian(n, w);
  }

  // ---------------------------------------------------------------------------
  // Two's complement
  // ---------------------------------------------------------------------------

  /** The bit pattern of x in w bytes: x modulo 2^(8w), which is what an
      unchecked C# cast to an unsigned type of that width keeps. */
  function Unsigned(x: int, w: nat): (u: nat)
    ensures u < Pow256(w)
  {
    x % Pow256(w)
  }

  lemma Pow256Widths()
    ensures Pow256(1) == 0x100 && Pow256(2) == 0x1_0000
    ensures Pow256(4) == 0x1_0000_0000 && Pow256(8) == 0x1_0000_0000_0000_0000
  {
  }

  /** The signed value a w-byte pattern denotes in two's complement. */
  function Signed(u: nat, w: nat): (x: int)
    requires 1 <= w && u < Pow256(w)
    ensures -(Pow256(w) / 2) <= x < Pow256(w) / 2
  {
    var half := 128 * Pow256(w - 1);
    assert Pow256(w) == 2 * half && Pow256(w) / 2 == half;
    if u < Pow256(w) / 2 then u else u - Pow256(w)
  }

  /** Unchecked C# narrowing conversions: (sbyte), (short) and (int). */
  function Wrap8(x: int): (r: Int8)
    ensures (x - r) % 0x100 == 0
    ensures -0x80 <= x < 0x80 ==> r == x
  {
    Signed(Unsigned(x, 1), 1)
  }

  function Wrap16(x: int): (r: Int16)
    ensures (x - r) % 0x1_0000 == 0
    ensures -0x8000 <= x < 0x8000 ==> r == x
  {
    Signed(Unsigned(x, 2), 2)
  }

  function Wrap32(x: int): (r: Int32)
    ensures (x - r) % 0x1_0000_0000 == 0
    ensures -0x8000_0000 <= x < 0x8000_0000 ==> r == x
  {
    Signed(Unsigned(x, 4), 4)
  }

  // ---------------------------------------------------------------------------
  // Bitwise AND and OR on non-negative integers, bit by bit
  // ---------------------------------------------------------------------------

  function BitAnd(a: nat, b: nat): nat
    decreases a
  {
    if a == 0 || b == 0 then 0
    else 2 * BitAnd(a / 2, b / 2) + (if a % 2 == 1 && b % 2 == 1 then 1 else 0)
  }

  function BitOr(a: nat, b: nat): nat
    decreases a + b
  {
    if a == 0 then b
    else if b == 0 then a
    else 2 * BitOr(a / 2, b / 2) + (if a % 2 == 1 || b % 2 == 1 then 1 else 0)
  }

  /** One step of AND against an even mask: the lowest bit is cleared. */
  lemma AndEvenMask(a: nat, m: nat)
    ensures BitAnd(a, 2 * m) == 2 * BitAnd(a / 2, m)
  {
    if a > 0 && m > 0 {
      var mm := 2 * m;
      assert mm / 2 == m && mm % 2 == 0;
      assert BitAnd(a, mm) == 2 * BitAnd(a / 2, mm / 2) + (if a % 2 == 1 && mm % 2 == 1 then 1 else 0);
    }
  }
  /** One step of AND against an odd mask: the lowest bit is kept. */
  lemma AndOddMask(a: nat, m: nat)
    ensures BitAnd(a, 2 * m + 1) == 2 * BitAnd(a / 2, m) + a % 2
  {
    var mm := 2 * m + 1;
    assert mm / 2 == m && mm % 2 == 1;
    if a > 0 {
      assert BitAnd(a, mm) == 2 * BitAnd(a / 2, mm / 2) + (if a % 2 == 1 && mm % 2 == 1 then 1 else 0);
    }
  }
  /** One step of OR: the lowest bit is the OR of the lowest bits. */
  lemma OrStep(a: nat, b: nat)
    ensures BitOr(a, b) == 2 * BitOr(a / 2, b / 2) + (if a % 2 == 1 || b % 2 == 1 then 1 else 0)
  {
    if a == 0 {
      assert BitOr(0, b / 2) == b / 2;
    } else if b == 0 {
      assert BitOr(a / 2, 0) == a / 2;
    }
  }
  // ---------------------------------------------------------------------------
  // The nibble operations of the chunk store and the terrain generator
  // ---------------------------------------------------------------------------

  /** The low four bits of b, one at a time. */
  lemma NibbleBits(b: nat)
    ensures b % 16 == 8 * ((b / 2 / 2 / 2) % 2) + 4 * ((b / 2 / 2) % 2) + 2 * ((b / 2) % 2) + b % 2
    ensures b / 2 / 2 / 2 / 2 == b / 16
  {
    var b1 := b / 2;
    var b2 := b1 / 2;
    var b3 := b2 / 2;
    var b4 := b3 / 2;
    var r := 8 * (b3 % 2) + 4 * (b2 % 2) + 2 * (b1 % 2) + b % 2;
    assert b == 2 * b1 + b % 2;
    assert b1 == 2 * b2 + b1 % 2;
    assert b2 == 2 * b3 + b2 % 2;
    assert b3 == 2 * b4 + b3 % 2;
    assert b == 16 * b4 + r;
    DivMod16(b, b4, r);
  }

  lemma DivMod16(b: int, q: int, r: int)
    requires 0 <= r < 16 && b == 16 * q + r
    ensures b / 16 == q && b % 16 == r
  {
  }

  /** b & 0x0F: the low nibble. */
  lemma {:induction false} LowNibbleMask(b: nat)
    ensures BitAnd(b, 0x0F) == b % 16
  {
    var b1 := b / 2;
    var b2 := b1 / 2;
    var b3 := b2 / 2;
    AndOddMask(b, 7);
    AndOddMask(b1, 3);
    AndOddMask(b2, 1);
    AndOddMask(b3, 0);
    assert BitAnd(b3 / 2, 0) == 0;
    NibbleBits(b);
  }
  /** Masking with m << 4 ignores the low nibble of the operand. */
  lemma {:induction false} AndShift4(a: nat, m: nat)
    ensures BitAnd(a, 16 * m) == 16 * BitAnd(a / 16, m)
  {
    var a1 := a / 2;
    var a2 := a1 / 2;
    var a3 := a2 / 2;
    var m2, m4, m8 := 2 * m, 4 * m, 8 * m;
    AndEvenMask(a, m8);
    assert BitAnd(a, 16 * m) == 2 * BitAnd(a1, m8);
    AndEvenMask(a1, m4);
    assert BitAnd(a1, m8) == 2 * BitAnd(a2, m4);
    AndEvenMask(a2, m2);
    assert BitAnd(a2, m4) == 2 * BitAnd(a3, m2);
    AndEvenMask(a3, m);
    assert BitAnd(a3, m2) == 2 * BitAnd(a3 / 2, m);
    NibbleBits(a);
  }

  /** b & 0xF0 on a byte: the byte with its low nibble cleared. */
  lemma {:induction false} HighNibbleMask(b: byte)
    ensures BitAnd(b, 0xF0) == 16 * (b / 16)
  {
    AndShift4(b, 15);
    LowNibbleMask(b / 16);
  }
  /** (m << 4) & 0xF0: the low nibble of m moved to the high nibble. */
  lemma {:induction false} ShiftedNibbleMask(m: nat)
    ensures BitAnd(m * 16, 0xF0) == 16 * (m % 16)
  {
    AndShift4(m * 16, 15);
    assert m * 16 / 16 == m;
    LowNibbleMask(m);
  }
  /** hi | lo for a value shifted left by four and a value below 16: the
      bits do not overlap, so OR is addition. */
  lemma {:induction false} NibbleOr(hi: nat, lo: nat)
    requires lo < 16
    ensures BitOr(16 * hi, lo) == 16 * hi + lo
  {
    var l1 := lo / 2;
    var l2 := l1 / 2;
    var l3 := l2 / 2;
    OrStep(16 * hi, lo);
    assert 16 * hi / 2 == 8 * hi;
    OrStep(8 * hi, l1);
    assert 8 * hi / 2 == 4 * hi;
    OrStep(4 * hi, l2);
    assert 4 * hi / 2 == 2 * hi;
    OrStep(2 * hi, l3);
    assert 2 * hi / 2 == hi;
    assert l3 / 2 == 0;
    assert BitOr(hi, 0) == hi;
  }
  /** The same with the operands the other way round. */
  lemma {:induction false} NibbleOrSwapped(hi: nat, lo: nat)
    requires lo < 16
    ensures BitOr(lo, 16 * hi) == 16 * hi + lo
  {
    var l1 := lo / 2;
    var l2 := l1 / 2;
    var l3 := l2 / 2;
    OrStep(lo, 16 * hi);
    assert 16 * hi / 2 == 8 * hi;
    OrStep(l1, 8 * hi);
    assert 8 * hi / 2 == 4 * hi;
    OrStep(l2, 4 * hi);
    assert 4 * hi / 2 == 2 * hi;
    OrStep(l3, 2 * hi);
    assert 2 * hi / 2 == hi;
    assert l3 / 2 == 0;
    assert BitOr(0, hi) == hi;
  }

  /** b & 1: the parity of b. */
  lemma {:induction false} ParityMask(b: nat)
    ensures BitAnd(b, 1) == b % 2
  {
    AndOddMask(b, 0);
    assert BitAnd(b / 2, 0) == 0;
  }
}
