/** What a 32-bit pattern means as a number (section 3.4 of IEEE 754-2008). */
module Binary32 {

  datatype Number = NaN | Infinite(negative: bool) | Finite(value: real)

  /** Two to the power of `e`. */
  function Power(e: int): (p: real)
    ensures p > 0.0
    decreases if e >= 0 then e else -e
  {
    if e == 0 then 1.0 else if e > 0 then 2.0 * Power(e - 1) else Power(e + 1) / 2.0
  }

  predicate Negative(f: nat) {
    f / 0x8000_0000 % 2 == 1
  }

  function Exponent(f: nat): (e: nat)
    ensures e < 256
  {
    f / 0x80_0000 % 256
  }

  function Fraction(f: nat): (t: nat)
    ensures t < 0x80_0000
  {
    f % 0x80_0000
  }

  function Magnitude(f: nat): (m: real) {
    if Exponent(f) == 0 then Fraction(f) as real * Power(-149)
    else (0x80_0000 + Fraction(f)) as real * Power(Exponent(f) - 150)
  }

  function Decode(f: nat): Number {
    if Exponent(f) == 255 then if Fraction(f) == 0 then Infinite(Negative(f)) else NaN
    else Finite(if Negative(f) then -Magnitude(f) else Magnitude(f))
  }

  /** `x == 0.0f` and `x <= 0` (section 5.11); every comparison with a NaN is false. */
  predicate IsZero(x: Number) {
    x.Finite? && x.value == 0.0
  }

  predicate AtMostZero(x: Number) {
    match x
    case NaN => false
    case Infinite(negative) => negative
    case Finite(v) => v <= 0.0
  }

  lemma ProductSign(x: real, p: real)
    requires x >= 0.0 && p > 0.0
    ensures x * p >= 0.0 && (x * p == 0.0 <==> x == 0.0)
  {
    if x > 0.0 {
      assert x * p > 0.0;
    }
  }

  lemma MagnitudeSign(f: nat)
    ensures Magnitude(f) >= 0.0 && (Magnitude(f) == 0.0 <==> Exponent(f) == 0 && Fraction(f) == 0)
  {
    if Exponent(f) == 0 {
      ProductSign(Fraction(f) as real, Power(-149));
    } else {
      ProductSign((0x80_0000 + Fraction(f)) as real, Power(Exponent(f) - 150));
    }
  }

  /** The three fields make up the pattern. */
  lemma FieldsOf(f: nat)
    requires f < 0x1_0000_0000
    ensures f == (if Negative(f) then 0x8000_0000 else 0) + Exponent(f) * 0x80_0000 + Fraction(f)
  {
  }

  /** Exactly two patterns are zero. */
  lemma ZeroPatterns(f: nat)
    requires f < 0x1_0000_0000
    ensures IsZero(Decode(f)) <==> f == 0 || f == 0x8000_0000
  {
    MagnitudeSign(f);
    FieldsOf(f);
  }

  /** The patterns of the numbers up to zero: both zeros, and the negative ones down to minus infinity. */
  lemma AtMostZeroPatterns(f: nat)
    requires f < 0x1_0000_0000
    ensures AtMostZero(Decode(f)) <==> f == 0 || 0x8000_0000 <= f <= 0xff80_0000
  {
    MagnitudeSign(f);
    FieldsOf(f);
  }
}
