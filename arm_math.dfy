/*
 * Scalar types and Cortex-M SIMD intrinsics used by the CMSIS-DSP kernels.
 *
 * The C types q7_t, q15_t and uint32_t and the intrinsics __ROR, __SXTB16,
 * __PKHBT and __PKHTB come from headers that are not part of this model; they
 * are re-specified here from the ARMv7-M instruction descriptions, with
 * 32-bit registers as bv32.
 */
module ArmMath {

  /** uint32_t: the type of every blockSize and loop counter. */
  type Uint32 = x: nat | x < 0x1_0000_0000

  /** q7_t: a signed 8-bit fixed-point sample (int8_t). */
  type Q7 = x: int | -0x80 <= x < 0x80

  /** q15_t: a signed 16-bit fixed-point sample (int16_t). */
  type Q15 = x: int | -0x8000 <= x < 0x8000

  /** The two byte orders a build can be configured for (ARM_MATH_BIG_ENDIAN). */
  datatype Endian = LittleEndian | BigEndian

  // ---------------------------------------------------------------------------
  // Two's-complement storage of q7_t and q15_t
  // ---------------------------------------------------------------------------

  /** The q7_t that a stored byte denotes. */
  function Q7OfBits(b: bv8): Q7 {
    var v := b as int;
    if v < 0x80 then v else v - 0x100
  }

  /** The q15_t that a stored halfword denotes. */
  function Q15OfBits(h: bv16): Q15 {
    var v := h as int;
    if v < 0x8000 then v else v - 0x1_0000
  }

  /** The unsigned value of a halfword made of a high and a low byte. */
  lemma HalfwordValue(hi: bv8, lo: bv8)
    ensures (((hi as bv16) << 8) | (lo as bv16)) as int == hi as int * 0x100 + lo as int
  {
  }

  // ---------------------------------------------------------------------------
  // Lanes of a 32-bit register
  // ---------------------------------------------------------------------------

  /** Byte lane k (bits 8k+7..8k) of a register. */
  function Byte(w: bv32, k: nat): bv8
    requires k < 4
  {
    (if k == 0 then w & 0xFF
     else if k == 1 then (w >> 8) & 0xFF
     else if k == 2 then (w >> 16) & 0xFF
     else w >> 24) as bv8
  }

  /** Halfword lane k (bits 16k+15..16k) of a register. */
  function Half(w: bv32, k: nat): bv16
    requires k < 2
  {
    (if k == 0 then w & 0xFFFF else w >> 16) as bv16
  }

  /** The register whose byte lanes 0..3 are b0..b3. */
  function FromBytes(b0: bv8, b1: bv8, b2: bv8, b3: bv8): (w: bv32)
    ensures Byte(w, 0) == b0 && Byte(w, 1) == b1 && Byte(w, 2) == b2 && Byte(w, 3) == b3
  {
    ((b3 as bv32) << 24) | ((b2 as bv32) << 16) | ((b1 as bv32) << 8) | (b0 as bv32)
  }

  /** The register whose low halfword is lo and whose high halfword is hi. */
  function FromHalves(lo: bv16, hi: bv16): (w: bv32)
    ensures Half(w, 0) == lo && Half(w, 1) == hi
  {
    ((hi as bv32) << 16) | (lo as bv32)
  }

  // ---------------------------------------------------------------------------
  // Intrinsics (ARMv7-M semantics)
  // ---------------------------------------------------------------------------

  /** SignExtend(b, 16) of the ARM pseudocode. */
  function SignExtend8(b: bv8): bv16 {
    if b & 0x80 == 0 then b as bv16 else (b as bv16) | 0xFF00
  }

  /** Sign extension keeps the byte as the low byte of the halfword ... */
  lemma SignExtendLowByte(b: bv8)
    ensures SignExtend8(b) & 0xFF == b as bv16
  {
    if b & 0x80 == 0 { } else { }
  }

  /** ... and keeps the value the byte represents. */
  lemma SignExtendValue(b: bv8)
    ensures Q15OfBits(SignExtend8(b)) == Q7OfBits(b)
  {
    HalfwordValue(0, b);
    HalfwordValue(0xFF, b);
    assert (b & 0x80 == 0) == (b as int < 0x80);
  }

  /** __ROR(x, n): ROR, the bits shifted out at the bottom re-enter at the top. */
  function Ror(x: bv32, n: nat): bv32
    requires n < 32
  {
    x.RotateRight(n)
  }

  /** Rotating right by 8 moves byte lanes 1 and 3 into lanes 0 and 2. */
  lemma RorByteLanes(x: bv32)
    ensures Byte(Ror(x, 8), 0) == Byte(x, 1) && Byte(Ror(x, 8), 2) == Byte(x, 3)
  {
    var r := x.RotateRight(8);
    assert Byte(r, 0) == Byte(x, 1);
    assert Byte(r, 2) == Byte(x, 3);
  }

  /** ASR(x, n) of the ARM pseudocode: the shift that copies the sign bit in. */
  function Asr(x: bv32, n: bv32): bv32
    requires n <= 32
  {
    if x & 0x8000_0000 == 0 then x >> n else !(!x >> n)
  }

  /**
   * __SXTB16(x): SXTB16 without rotation. Halfword 0 becomes the sign-extended
   * byte 0 and halfword 1 the sign-extended byte 2.
   */
  function Sxtb16(x: bv32): bv32 {
    FromHalves(SignExtend8(Byte(x, 0)), SignExtend8(Byte(x, 2)))
  }

  /** Each halfword of SXTB16's result holds the value of byte 0, resp. byte 2. */
  lemma Sxtb16Value(x: bv32)
    ensures Q15OfBits(Half(Sxtb16(x), 0)) == Q7OfBits(Byte(x, 0))
    ensures Q15OfBits(Half(Sxtb16(x), 1)) == Q7OfBits(Byte(x, 2))
  {
    SignExtendValue(Byte(x, 0));
    SignExtendValue(Byte(x, 2));
  }

  /** __PKHBT(a, b, sh): PKHBT, bottom halfword of a, top halfword of b LSL sh. */
  function Pkhbt(a: bv32, b: bv32, sh: bv32): bv32
    requires sh < 32
  {
    FromHalves(Half(a, 0), Half(b << sh, 1))
  }

  /** __PKHTB(a, b, sh): PKHTB, top halfword of a, bottom halfword of b ASR sh. */
  function Pkhtb(a: bv32, b: bv32, sh: bv32): bv32
    requires 1 <= sh <= 32
  {
    FromHalves(Half(Asr(b, sh), 0), Half(a, 1))
  }

  /** With a shift of 16, PKHBT joins the bottom halfwords of its operands. */
  lemma PkhbtHalfwords(a: bv32, b: bv32)
    ensures Pkhbt(a, b, 16) == FromHalves(Half(a, 0), Half(b, 0))
  {
    assert Half(b << 16, 1) == Half(b, 0);
  }

  /** With a shift of 16, PKHTB joins the top halfwords, that of its first operand on top. */
  lemma PkhtbHalfwords(a: bv32, b: bv32)
    ensures Pkhtb(a, b, 16) == FromHalves(Half(b, 1), Half(a, 1))
  {
    if b & 0x8000_0000 == 0 {
      assert Asr(b, 16) == b >> 16;
      assert Half(b >> 16, 0) == Half(b, 1);
    } else {
      assert Asr(b, 16) == !(!b >> 16);
      assert Half(!(!b >> 16), 0) == Half(b, 1);
    }
  }
}
