/*
 * arm_q7_to_q15: converts a vector of Q7 samples to Q15 samples,
 * pDst[n] = (q15_t) pSrc[n] << 8 for 0 <= n < blockSize.
 *
 * The Cortex-M3/M4 build converts four samples per iteration by loading them
 * as one 32-bit word and rebuilding two output words with SIMD intrinsics,
 * then finishes the blockSize % 4 remaining samples one at a time; the
 * Cortex-M0 build uses the one-at-a-time loop for every sample. The two builds
 * are the methods ArmQ7ToQ15 (with the byte order as a parameter) and
 * ArmQ7ToQ15Cm0.
 */
module ArmQ7ToQ15 {
  import opened ArmMath

  /** The scalar conversion (q15_t) x << 8, as the value x * 2^8. */
  function ScaleQ7(x: Q7): (r: Q15)
    ensures -0x8000 <= r <= 0x7F00
    ensures r % 0x100 == 0 && r / 0x100 == x
    ensures r == -0x8000 <==> x == -0x80
  {
    x * 0x100
  }

  /** The bit pattern of ScaleQ7: the Q7 byte in the high half, a zero low byte. */
  function WidenedBits(b: bv8): bv16 {
    (b as bv16) << 8
  }

  /** WidenedBits is the bit-level form of the scalar conversion. */
  lemma WidenedBitsValue(b: bv8)
    ensures Q15OfBits(WidenedBits(b)) == ScaleQ7(Q7OfBits(b))
  {
    assert WidenedBits(b) == ((b as bv16) << 8) | ((0 as bv8) as bv16);
    HalfwordValue(b, 0);
  }

  /** The register byte lane that holds the sample at address offset k of a word. */
  function ByteLane(k: nat, e: Endian): nat
    requires k < 4
  {
    if e == LittleEndian then k else 3 - k
  }

  /** The register halfword lane that is stored at halfword offset k of a word. */
  function HalfLane(k: nat, e: Endian): nat
    requires k < 2
  {
    if e == LittleEndian then k else 1 - k
  }

  /** The word *__SIMD32(pIn) reads from four consecutive q7_t bytes. */
  function PackBytes(g: seq<bv8>, e: Endian): bv32
    requires |g| == 4
  {
    if e == LittleEndian then FromBytes(g[0], g[1], g[2], g[3])
    else FromBytes(g[3], g[2], g[1], g[0])
  }

  /** The loaded word holds the byte at address offset k in lane ByteLane(k). */
  lemma PackBytesLanes(g: seq<bv8>, e: Endian)
    requires |g| == 4
    ensures forall k :: 0 <= k < 4 ==> Byte(PackBytes(g, e), ByteLane(k, e)) == g[k]
  {
  }

  /** The two q15_t samples that *__SIMD32(pDst)++ = w writes, in address order. */
  function StoreHalves(w: bv32, e: Endian): seq<Q15> {
    [Q15OfBits(Half(w, HalfLane(0, e))), Q15OfBits(Half(w, HalfLane(1, e)))]
  }

  /**
   * The halfword that out1 (out2) stores at halfword offset j holds the
   * widened bits of the byte loaded from address offset j (2 + j) of w.
   */
  predicate WidenedLanes(w: bv32, e: Endian, out1: bv32, out2: bv32) {
    Half(out1, HalfLane(0, e)) == WidenedBits(Byte(w, ByteLane(0, e))) &&
    Half(out1, HalfLane(1, e)) == WidenedBits(Byte(w, ByteLane(1, e))) &&
    Half(out2, HalfLane(0, e)) == WidenedBits(Byte(w, ByteLane(2, e))) &&
    Half(out2, HalfLane(1, e)) == WidenedBits(Byte(w, ByteLane(3, e)))
  }

  /** Shifting a register left by 8 and masking with 0xFF00FF00 moves the low byte of each halfword up. */
  lemma ShiftMaskHalves(x: bv32)
    ensures Half((x << 8) & 0xFF00_FF00, 0) == (Half(x, 0) & 0xFF) << 8
    ensures Half((x << 8) & 0xFF00_FF00, 1) == (Half(x, 1) & 0xFF) << 8
  {
    var m := (x << 8) & 0xFF00_FF00;
    assert Half(m, 0) == (m & 0xFFFF) as bv16;
    assert Half(x, 0) == (x & 0xFFFF) as bv16;
    assert Half(m, 1) == (m >> 16) as bv16;
    assert Half(x, 1) == (x >> 16) as bv16;
  }

  /**
   * After the shift by 8 and the mask, the SXTB16 of a word holds its bytes 0
   * and 2 in the high bytes of its halfwords: the sign extension is shifted
   * out or masked off.
   */
  lemma ExtendedPair(x: bv32)
    ensures var m := (Sxtb16(x) << 8) & 0xFF00_FF00;
            Half(m, 0) == WidenedBits(Byte(x, 0)) && Half(m, 1) == WidenedBits(Byte(x, 2))
  {
    ShiftMaskHalves(Sxtb16(x));
    SignExtendLowByte(Byte(x, 0));
    SignExtendLowByte(Byte(x, 2));
  }

  /**
   * Lines 91-100 of one unrolled iteration: in1, from the word rotated by 8,
   * ends up holding bytes 1 and 3 of w in the high byte of its halfwords; in2,
   * from the word itself, bytes 0 and 2. The low bytes are zero.
   */
  method ExtendPairs(w: bv32) returns (in1: bv32, in2: bv32)
    ensures Half(in1, 0) == WidenedBits(Byte(w, 1)) && Half(in1, 1) == WidenedBits(Byte(w, 3))
    ensures Half(in2, 0) == WidenedBits(Byte(w, 0)) && Half(in2, 1) == WidenedBits(Byte(w, 2))
  {
    // SXTB16, then << 8, then & 0xFF00FF00, on each register in turn
    in1 := (Sxtb16(Ror(w, 8)) << 8) & 0xFF00_FF00;
    in2 := (Sxtb16(w) << 8) & 0xFF00_FF00;
    ExtendedPair(Ror(w, 8));
    RorByteLanes(w);
    ExtendedPair(w);
  }

  /**
   * Lines 102-111: the PKHTB/PKHBT pair. Little-endian, out1 joins the bottom
   * halfwords (in2's below in1's) and out2 the top ones; big-endian, the two
   * targets are swapped.
   */
  method PackPairs(in1: bv32, in2: bv32, e: Endian) returns (out1: bv32, out2: bv32)
    ensures e == LittleEndian ==> out1 == FromHalves(Half(in2, 0), Half(in1, 0))
    ensures e == LittleEndian ==> out2 == FromHalves(Half(in2, 1), Half(in1, 1))
    ensures e == BigEndian ==> out1 == FromHalves(Half(in2, 1), Half(in1, 1))
    ensures e == BigEndian ==> out2 == FromHalves(Half(in2, 0), Half(in1, 0))
  {
    PkhbtHalfwords(in2, in1);
    PkhtbHalfwords(in1, in2);
    if e == LittleEndian {
      out2 := Pkhtb(in1, in2, 16);
      out1 := Pkhbt(in2, in1, 16);
    } else {
      out1 := Pkhtb(in1, in2, 16);
      out2 := Pkhbt(in2, in1, 16);
    }
  }

  /**
   * The register computation of one unrolled iteration: whichever the byte
   * order, each halfword that is stored holds the widened bits of the byte
   * loaded from the matching address.
   */
  method WidenRegisters(w: bv32, e: Endian) returns (out1: bv32, out2: bv32)
    ensures WidenedLanes(w, e, out1, out2)
  {
    var in1, in2 := ExtendPairs(w);
    out1, out2 := PackPairs(in1, in2, e);
  }

  /**
   * One unrolled iteration, from the four bytes it loads to the four q15_t it
   * stores, agrees with the scalar conversion for every input and byte order.
   */
  lemma GroupStoresExact(g: seq<bv8>, e: Endian, out1: bv32, out2: bv32)
    requires |g| == 4
    requires WidenedLanes(PackBytes(g, e), e, out1, out2)
    ensures StoreHalves(out1, e) == [ScaleQ7(Q7OfBits(g[0])), ScaleQ7(Q7OfBits(g[1]))]
    ensures StoreHalves(out2, e) == [ScaleQ7(Q7OfBits(g[2])), ScaleQ7(Q7OfBits(g[3]))]
  {
    PackBytesLanes(g, e);
    WidenedBitsValue(g[0]);
    WidenedBitsValue(g[1]);
    WidenedBitsValue(g[2]);
    WidenedBitsValue(g[3]);
  }

  /**
   * One iteration of the unrolled loop: load the four samples at offset i as
   * one word, rebuild them as two words of two q15_t each, and store both.
   */
  method WidenGroup(src: array<bv8>, dst: array<Q15>, i: nat, e: Endian)
    requires i + 4 <= src.Length && i + 4 <= dst.Length
    requires src as object != dst
    modifies dst
    ensures forall n :: i <= n < i + 4 ==> dst[n] == ScaleQ7(Q7OfBits(src[n]))
    ensures forall n :: 0 <= n < dst.Length && !(i <= n < i + 4) ==> dst[n] == old(dst[n])
  {
    var g := src[i..i + 4];
    assert g[0] == src[i] && g[1] == src[i + 1] && g[2] == src[i + 2] && g[3] == src[i + 3];
    var w := PackBytes(g, e);
    var out1, out2 := WidenRegisters(w, e);
    GroupStoresExact(g, e, out1, out2);
    var lo := StoreHalves(out1, e);
    var hi := StoreHalves(out2, e);
    dst[i], dst[i + 1] := lo[0], lo[1];
    dst[i + 2], dst[i + 3] := hi[0], hi[1];
  }

  /** The M3/M4 build: four samples per packed iteration, then a scalar tail. */
  method ArmQ7ToQ15(src: array<bv8>, dst: array<Q15>, blockSize: Uint32, e: Endian)
    requires blockSize <= src.Length && blockSize <= dst.Length
    requires src as object != dst
    modifies dst
    ensures forall n :: 0 <= n < blockSize ==> dst[n] == ScaleQ7(Q7OfBits(src[n]))
    ensures forall n :: blockSize <= n < dst.Length ==> dst[n] == old(dst[n])
    ensures src[..] == old(src[..])
  {
    // i is both pIn - pSrc and pDst - dst, counted in samples
    var i := 0;
    var blkCnt: Uint32 := blockSize / 4;
    while blkCnt > 0
      invariant i + 4 * blkCnt == 4 * (blockSize / 4)
      invariant forall n :: 0 <= n < i ==> dst[n] == ScaleQ7(Q7OfBits(src[n]))
      invariant forall n :: i <= n < dst.Length ==> dst[n] == old(dst[n])
    {
      WidenGroup(src, dst, i, e);
      i := i + 4;
      blkCnt := blkCnt - 1;
    }
    blkCnt := blockSize % 4;
    while blkCnt > 0
      invariant i + blkCnt == blockSize
      invariant forall n :: 0 <= n < i ==> dst[n] == ScaleQ7(Q7OfBits(src[n]))
      invariant forall n :: i <= n < dst.Length ==> dst[n] == old(dst[n])
    {
      dst[i] := ScaleQ7(Q7OfBits(src[i]));
      i := i + 1;
      blkCnt := blkCnt - 1;
    }
  }

  /** The M0 build: the scalar loop converts all blockSize samples. */
  method ArmQ7ToQ15Cm0(src: array<bv8>, dst: array<Q15>, blockSize: Uint32)
    requires blockSize <= src.Length && blockSize <= dst.Length
    requires src as object != dst
    modifies dst
    ensures forall n :: 0 <= n < blockSize ==> dst[n] == ScaleQ7(Q7OfBits(src[n]))
    ensures forall n :: blockSize <= n < dst.Length ==> dst[n] == old(dst[n])
    ensures src[..] == old(src[..])
  {
    var i := 0;
    var blkCnt: Uint32 := blockSize;
    while blkCnt > 0
      invariant i + blkCnt == blockSize
      invariant forall n :: 0 <= n < i ==> dst[n] == ScaleQ7(Q7OfBits(src[n]))
      invariant forall n :: i <= n < dst.Length ==> dst[n] == old(dst[n])
    {
      dst[i] := ScaleQ7(Q7OfBits(src[i]));
      i := i + 1;
      blkCnt := blkCnt - 1;
    }
  }

  /**
   * The three builds (M3/M4 little-endian, M3/M4 big-endian, M0) leave
   * identical contents in equal destination buffers.
   */
  method BuildsAgree(src: array<bv8>, d1: array<Q15>, d2: array<Q15>, d3: array<Q15>, blockSize: Uint32)
    requires blockSize <= src.Length
    requires blockSize <= d1.Length && d1.Length == d2.Length == d3.Length
    requires d1 != d2 && d2 != d3 && d1 != d3
    requires src as object != d1 && src as object != d2 && src as object != d3
    requires d1[..] == d2[..] == d3[..]
    modifies d1, d2, d3
    ensures d1[..] == d2[..] == d3[..]
  {
    ArmQ7ToQ15(src, d1, blockSize, LittleEndian);
    ArmQ7ToQ15(src, d2, blockSize, BigEndian);
    ArmQ7ToQ15Cm0(src, d3, blockSize);
  }

  /** Widening [1, -1, 127, -128] gives [256, -256, 32512, -32768] in every build. */
  method WidenExample(e: Endian) returns (out: seq<Q15>, scalarOut: seq<Q15>)
    ensures out == scalarOut == [256, -256, 32512, -32768]
  {
    // the stored bytes of the q7_t values 1, -1, 127, -128
    var src := new bv8[4];
    src[0], src[1], src[2], src[3] := 0x01, 0xFF, 0x7F, 0x80;
    var dst := new Q15[4];
    ArmQ7ToQ15(src, dst, 4, e);
    out := dst[..];
    var dst0 := new Q15[4];
    ArmQ7ToQ15Cm0(src, dst0, 4);
    scalarOut := dst0[..];
  }
}
