/** The value an IEEE-754 double-precision bit pattern denotes: a real number,
    or NaN and the infinities, which all have every exponent bit set and which
    the server only ever tests for, never computes with. */
module Ieee {
  import opened Binary

  datatype Num = Finite(value: real) | NonFinite

  const SignBit: nat := 0x8000_0000_0000_0000
  const FractionUnit: nat := 0x10_0000_0000_0000

  /** The eleven exponent bits, 52 to 62. */
  function Exponent(d: Bits64): (e: nat)
    ensures e < 0x800
  {
    (d / FractionUnit) % 0x800
  }

  /** `double.IsNaN(d) || double.IsInfinity(d)`. */
  predicate IsNonFinite(d: Bits64) {
    Exponent(d) == 0x7FF
  }

  function Pow2(e: nat): (r: nat)
    ensures r >= 1
  {
    if e == 0 then 1 else 2 * Pow2(e - 1)
  }

  function TwoTo(e: nat): (r: real)
    ensures r >= 1.0
  {
    Pow2(e) as real
  }

  function DoubleValue(d: Bits64): (n: Num)
    ensures n.NonFinite? <==> IsNonFinite(d)
  {
    var e := Exponent(d);
    var f := d % FractionUnit;
    if e == 0x7FF then NonFinite
    else
      var magnitude :=
        if e == 0 then f as real / TwoTo(1074)
        else if e >= 1075 then (FractionUnit + f) as real * TwoTo(e - 1075)
        else (FractionUnit + f) as real / TwoTo(1075 - e);
      Finite(if d >= SignBit then -magnitude else magnitude)
  }

  /** Setting the sign bit negates a finite value and keeps a non-finite one
      non-finite. */
  lemma NegateBySignBit(d: Bits64)
    requires d < SignBit
    ensures DoubleValue(d + SignBit).NonFinite? == DoubleValue(d).NonFinite?
    ensures DoubleValue(d).Finite? ==>
              DoubleValue(d + SignBit) == Finite(-DoubleValue(d).value)
  {
    var q := d / FractionUnit;
    assert (d + SignBit) / FractionUnit == q + 0x800;
    assert (d + SignBit) % FractionUnit == d % FractionUnit;
    assert (q + 0x800) % 0x800 == q % 0x800;
  }

  /** Both zeros, +0 and -0 (only the sign bit set), are the value zero. */
  lemma Zeros(d: Bits64)
    requires d % SignBit == 0
    ensures DoubleValue(d) == Finite(0.0)
  {
    assert d == 0 || d == SignBit;
    assert d % FractionUnit == 0 && Exponent(d) == 0;
  }

  /** A pattern is non-finite exactly when its magnitude (the pattern with
      the sign bit cleared) is at least the pattern of positive infinity; in
      particular both infinities are non-finite. */
  lemma NonFiniteByMagnitude(d: Bits64)
    ensures DoubleValue(d).NonFinite? <==> d % SignBit >= 0x7FF0_0000_0000_0000
    ensures DoubleValue(0x7FF0_0000_0000_0000) == NonFinite
    ensures DoubleValue(0xFFF0_0000_0000_0000) == NonFinite
  {
    var q := d / FractionUnit;
    var r := d % FractionUnit;
    var e := q % 0x800;
    var h := q / 0x800;
    assert d == q * FractionUnit + r;
    assert q == h * 0x800 + e;
    assert d == h * SignBit + (e * FractionUnit + r);
    assert 0 <= e * FractionUnit + r < SignBit;
    assert d % SignBit == e * FractionUnit + r;
    assert e == 0x7FF <==> e * FractionUnit + r >= 0x7FF0_0000_0000_0000;
    assert Exponent(0x7FF0_0000_0000_0000) == 0x7FF;
    assert Exponent(0xFFF0_0000_0000_0000) == 0x7FF;
  }
}
