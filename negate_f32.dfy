/*
 * arm_negate_f32: negates a vector of single-precision floats,
 * pDst[n] = -pSrc[n] for 0 <= n < blockSize.
 *
 * A float32_t is modelled as its IEEE 754 binary32 bit pattern. Negation in
 * IEEE 754 (section 5.5.1 of IEEE 754-2008) is exact: it flips the sign bit and
 * keeps everything else, so NaNs, infinities and signed zeros need no
 * floating-point arithmetic here.
 *
 * The Cortex-M3/M4 build negates four samples per iteration, reading all four
 * before writing any, then finishes the blockSize % 4 remaining samples one at
 * a time; the Cortex-M0 build uses the one-at-a-time loop for every sample.
 * Source and destination may be the same buffer.
 */
module ArmNegateF32 {
  import opened ArmMath

  /** float32_t, as its binary32 bit pattern. */
  type F32 = bv32

  /** The sign bit (bit 31): set for negative values, -0 and negative NaNs. */
  predicate SignSet(x: F32) {
    x & 0x8000_0000 != 0
  }

  /** The biased exponent field, bits 30..23. */
  function Exponent(x: F32): bv32 {
    (x >> 23) & 0xFF
  }

  /** The fraction field, bits 22..0. */
  function Fraction(x: F32): bv32 {
    x & 0x7F_FFFF
  }

  /** The three fields together determine the bit pattern. */
  lemma FieldsDetermine(x: F32, y: F32)
    requires SignSet(x) == SignSet(y)
    requires Exponent(x) == Exponent(y) && Fraction(x) == Fraction(y)
    ensures x == y
  {
  }

  /** The unary minus of float32_t: the sign bit flips ... */
  function Negate(x: F32): (r: F32)
    ensures SignSet(r) == !SignSet(x)
  {
    x ^ 0x8000_0000
  }

  /** ... and the exponent and fraction stay. */
  lemma NegateFields(x: F32)
    ensures Exponent(Negate(x)) == Exponent(x)
    ensures Fraction(Negate(x)) == Fraction(x)
  {
  }

  /** Negating twice gives back the same bit pattern, for NaNs and zeros too. */
  lemma NegateInvolution(x: F32)
    ensures Negate(Negate(x)) == x
  {
    NegateFields(x);
    NegateFields(Negate(x));
    FieldsDetermine(Negate(Negate(x)), x);
  }

  /** Neither an infinity nor a NaN: the exponent field is not all ones. */
  predicate IsFinite(x: F32) {
    Exponent(x) != 0xFF
  }

  /** Negation keeps NaNs NaN and maps each infinity to the other. */
  lemma NegateSpecials(x: F32)
    requires !IsFinite(x)
    ensures !IsFinite(Negate(x))
    ensures Fraction(x) == 0 <==> Fraction(Negate(x)) == 0
    ensures x == 0x7F80_0000 <==> Negate(x) == 0xFF80_0000
  {
    NegateFields(x);
    if x == 0x7F80_0000 {
    } else if Negate(x) == 0xFF80_0000 {
      NegateInvolution(x);
    }
  }

  // ---------------------------------------------------------------------------
  // The kernel
  // ---------------------------------------------------------------------------

  /**
   * One iteration of the unrolled loop: read the four inputs at offset i into
   * in1..in4, negate them, then store them. Because every read precedes every
   * write, the outputs are the negated old inputs even when src == dst.
   */
  method NegateGroup(src: array<F32>, dst: array<F32>, i: nat)
    requires i + 4 <= src.Length && i + 4 <= dst.Length
    modifies dst
    ensures forall n :: i <= n < i + 4 ==> dst[n] == Negate(old(src[n]))
    ensures forall n :: 0 <= n < dst.Length && !(i <= n < i + 4) ==> dst[n] == old(dst[n])
  {
    var in1 := src[i];
    var in2 := src[i + 1];
    var in3 := src[i + 2];
    var in4 := src[i + 3];
    in1 := Negate(in1);
    in2 := Negate(in2);
    in3 := Negate(in3);
    in4 := Negate(in4);
    dst[i] := in1;
    dst[i + 1] := in2;
    dst[i + 2] := in3;
    dst[i + 3] := in4;
  }

  /** The M3/M4 build: four samples per unrolled iteration, then a scalar tail. */
  method ArmNegateF32(src: array<F32>, dst: array<F32>, blockSize: Uint32)
    requires blockSize <= src.Length && blockSize <= dst.Length
    modifies dst
    ensures forall n :: 0 <= n < blockSize ==> dst[n] == Negate(old(src[n]))
    ensures forall n :: blockSize <= n < dst.Length ==> dst[n] == old(dst[n])
    ensures src != dst ==> src[..] == old(src[..])
  {
    // i is both pSrc and pDst as an offset from their initial values
    var i := 0;
    var blkCnt: Uint32 := blockSize / 4;
    while blkCnt > 0
      invariant i + 4 * blkCnt == 4 * (blockSize / 4)
      invariant forall n :: 0 <= n < i ==> dst[n] == Negate(old(src[n]))
      invariant forall n :: i <= n < dst.Length ==> dst[n] == old(dst[n])
      invariant forall n :: i <= n < src.Length ==> src[n] == old(src[n])
    {
      NegateGroup(src, dst, i);
      i := i + 4;
      blkCnt := blkCnt - 1;
    }
    blkCnt := blockSize % 4;
    while blkCnt > 0
      invariant i + blkCnt == blockSize
      invariant forall n :: 0 <= n < i ==> dst[n] == Negate(old(src[n]))
      invariant forall n :: i <= n < dst.Length ==> dst[n] == old(dst[n])
      invariant forall n :: i <= n < src.Length ==> src[n] == old(src[n])
    {
      dst[i] := Negate(src[i]);
      i := i + 1;
      blkCnt := blkCnt - 1;
    }
  }

  /** The M0 build: the scalar loop negates all blockSize samples. */
  method ArmNegateF32Cm0(src: array<F32>, dst: array<F32>, blockSize: Uint32)
    requires blockSize <= src.Length && blockSize <= dst.Length
    modifies dst
    ensures forall n :: 0 <= n < blockSize ==> dst[n] == Negate(old(src[n]))
    ensures forall n :: blockSize <= n < dst.Length ==> dst[n] == old(dst[n])
    ensures src != dst ==> src[..] == old(src[..])
  {
    var i := 0;
    var blkCnt: Uint32 := blockSize;
    while blkCnt > 0
      invariant i + blkCnt == blockSize
      invariant forall n :: 0 <= n < i ==> dst[n] == Negate(old(src[n]))
      invariant forall n :: i <= n < dst.Length ==> dst[n] == old(dst[n])
      invariant forall n :: i <= n < src.Length ==> src[n] == old(src[n])
    {
      dst[i] := Negate(src[i]);
      i := i + 1;
      blkCnt := blkCnt - 1;
    }
  }

  /** The M3/M4 and M0 builds leave identical contents in equal destination buffers. */
  method BuildsAgree(src: array<F32>, d1: array<F32>, d2: array<F32>, blockSize: Uint32)
    requires blockSize <= src.Length && blockSize <= d1.Length
    requires d1 != d2 && src != d1 && src != d2
    requires d1[..] == d2[..]
    modifies d1, d2
    ensures d1[..] == d2[..]
  {
    ArmNegateF32(src, d1, blockSize);
    ArmNegateF32Cm0(src, d2, blockSize);
  }

  /** Running the kernel in place twice restores every bit pattern of the buffer. */
  method NegateTwiceInPlace(a: array<F32>, blockSize: Uint32)
    requires blockSize <= a.Length
    modifies a
    ensures a[..] == old(a[..])
  {
    ArmNegateF32(a, a, blockSize);
    ArmNegateF32(a, a, blockSize);
    forall n | 0 <= n < blockSize {
      NegateInvolution(old(a[n]));
    }
  }

  /**
   * In place, [1.5, -2.0, +0.0, 3.25, NaN] becomes [-1.5, 2.0, -0.0, -3.25, -NaN]:
   * one unrolled group and one tail sample.
   */
  method NegateExample() returns (out: seq<F32>)
    ensures out == [0xBFC0_0000, 0x4000_0000, 0x8000_0000, 0xC050_0000, 0xFFC0_0000]
  {
    var a := new F32[5];
    a[0], a[1], a[2], a[3], a[4] := 0x3FC0_0000, 0xC000_0000, 0, 0x4050_0000, 0x7FC0_0000;
    ArmNegateF32(a, a, 5);
    out := a[..];
  }
}
