/*
 * The real numbers that finite binary32 bit patterns denote, and the fact
 * that the sign-bit flip of arm_negate_f32 is arithmetic negation on them.
 */
module Binary32Value {
  import opened ArmNegateF32

  /** m * 2^k for any integer k. */
  ghost function Scale(m: nat, k: int): (r: real)
    ensures r >= 0.0
    ensures m > 0 ==> r > 0.0
    decreases if k < 0 then -k else k
  {
    if k == 0 then m as real
    else if k > 0 then 2.0 * Scale(m, k - 1)
    else Scale(m, k + 1) / 2.0
  }

  /**
   * The magnitude of a finite binary32 number with biased exponent e and
   * fraction f: (1 + f / 2^23) * 2^(e - 127) when normal (e > 0), f / 2^23 * 2^-126
   * when subnormal or zero.
   */
  ghost function Magnitude(e: nat, f: nat): real {
    if e == 0 then Scale(f, -149)
    else Scale(0x80_0000 + f, e - 150)
  }

  /** The real number a finite binary32 pattern denotes. */
  ghost function Value(x: F32): real
    requires IsFinite(x)
  {
    var m := Magnitude(Exponent(x) as int, Fraction(x) as int);
    if SignSet(x) then -m else m
  }

  /** On finite values Negate is the arithmetic negation (and maps +0 and -0 to each other). */
  lemma NegateValue(x: F32)
    requires IsFinite(x)
    ensures IsFinite(Negate(x))
    ensures Value(Negate(x)) == -Value(x)
  {
    var y := Negate(x);
    NegateFields(x);
    assert Exponent(y) as int == Exponent(x) as int;
    assert Fraction(y) as int == Fraction(x) as int;
  }
}
