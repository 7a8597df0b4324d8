# CMSIS-DSP `arm_q7_to_q15` and `arm_negate_f32` in Dafny

This project models two elementwise vector kernels of the CMSIS-DSP library
shipped with the Nuvoton M451 board support package, and proves what each one
computes.

- `arm_q7_to_q15` converts `blockSize` Q7 samples (signed 8-bit fixed point) to
  Q15 samples (signed 16-bit fixed point): `pDst[n] = (q15_t) pSrc[n] << 8`.
  - The Cortex-M3/M4 build loads four samples as one 32-bit word.
  - It rebuilds them as two words of two Q15 samples each, using
    `__ROR`, `__SXTB16`, a shift by 8, the mask `0xFF00FF00`, and
    `__PKHTB`/`__PKHBT`. The targets of the last two are swapped in a
    big-endian build.
  - It then converts the `blockSize % 4` remaining samples one at a time.
  - The Cortex-M0 build converts every sample one at a time.
- `arm_negate_f32` negates `blockSize` single-precision floats:
  `pDst[n] = -pSrc[n]`.
  - The Cortex-M3/M4 build reads four samples into `in1..in4`, negates them,
    and stores them, then handles the remainder one at a time.
  - The Cortex-M0 build negates every sample one at a time.
  - Source and destination may be the same buffer.

## Files and modules

- `arm_math.dfy` — module `ArmMath`:
  - the C types `uint32_t`, `q7_t` and `q15_t`, and the two byte orders;
  - the two's-complement reading of stored bytes and halfwords;
  - the byte and halfword lanes of a 32-bit register;
  - the intrinsics `__ROR`, `__SXTB16`, `__PKHBT` and `__PKHTB`, written as
    `bv32` functions that follow the ARMv7-M instruction descriptions
    (ROR, SXTB16, PKHBT, PKHTB with ASR).
- `q7_to_q15.dfy` — module `ArmQ7ToQ15`:
  - the scalar conversion;
  - the word load and the two word stores of the unrolled loop, for either
    byte order;
  - one unrolled iteration, split into the steps of the C code;
  - both builds as methods over arrays. The byte order is a parameter.
- `negate_f32.dfy` — module `ArmNegateF32`:
  - a `float32_t` as its IEEE 754 binary32 bit pattern, and its fields;
  - negation as the flip of the sign bit (section 5.5.1 of IEEE 754-2008);
  - the unrolled iteration and both builds as methods over arrays.
- `binary32_value.dfy` — module `Binary32Value`: the real number a finite
  binary32 pattern denotes. On these numbers the sign-bit flip is arithmetic
  negation.

Advancing `pIn`, `pSrc` and `pDst` (`pIn++`, `pSrc += 4u`, `*__SIMD32(pDst)++`) becomes one
element offset `i` into both arrays. The counter `blkCnt` is kept, with the
source's initial values:

- `blockSize >> 2u`, written `blockSize / 4`, which is equal for an unsigned
  operand;
- `blockSize % 0x4u`;
- `blockSize` for the M0 build.

Each configuration is its own method instead of a preprocessor flag:

- `ARM_MATH_CM0` defined or not;
- `ARM_MATH_BIG_ENDIAN` defined or not, as an `Endian` parameter.

## Model

| member | source | states |
|---|---|---|
| ArmMath.SignExtendValue | M451BSP/Library/CMSIS/DSP_Lib/Source/SupportFunctions/arm_q7_to_q15.c:91-94 | Sign-extending a byte to 16 bits keeps the q7_t value the byte denotes. |
| ArmMath.SignExtendLowByte | M451BSP/Library/CMSIS/DSP_Lib/Source/SupportFunctions/arm_q7_to_q15.c:91-94 | The sign-extended halfword keeps the byte as its low byte. |
| ArmMath.Sxtb16Value | M451BSP/Library/CMSIS/DSP_Lib/Source/SupportFunctions/arm_q7_to_q15.c:91-94 | Halfword 0 of `__SXTB16(x)` denotes the q7_t value of byte 0 of x. Halfword 1 denotes that of byte 2. |
| ArmMath.RorByteLanes | M451BSP/Library/CMSIS/DSP_Lib/Source/SupportFunctions/arm_q7_to_q15.c:91 | `__ROR(in, 8)` holds bytes 1 and 3 of `in` in its byte lanes 0 and 2. |
| ArmMath.PkhbtHalfwords | M451BSP/Library/CMSIS/DSP_Lib/Source/SupportFunctions/arm_q7_to_q15.c:104-110 | `__PKHBT(a, b, 16)` has a's bottom halfword at the bottom and b's bottom halfword on top. |
| ArmMath.PkhtbHalfwords | M451BSP/Library/CMSIS/DSP_Lib/Source/SupportFunctions/arm_q7_to_q15.c:104-110 | `__PKHTB(a, b, 16)` has b's top halfword at the bottom and a's top halfword on top, for either sign of b. |
| ArmQ7ToQ15.ScaleQ7 | M451BSP/Library/CMSIS/DSP_Lib/Source/SupportFunctions/arm_q7_to_q15.c:58 | The converted sample lies in [-32768, 32512]. It is a multiple of 256 whose quotient by 256 is the input. It is -32768 exactly when the input is -128. |
| ArmQ7ToQ15.WidenedBitsValue | M451BSP/Library/CMSIS/DSP_Lib/Source/SupportFunctions/arm_q7_to_q15.c:138 | A halfword with the stored byte on top and a zero low byte denotes the scalar conversion of the byte's q7_t value. |
| ArmQ7ToQ15.PackBytesLanes | M451BSP/Library/CMSIS/DSP_Lib/Source/SupportFunctions/arm_q7_to_q15.c:88 | The word `*__SIMD32(pIn)` loads holds the byte at address offset k in lane k (little-endian) or lane 3 - k (big-endian). |
| ArmQ7ToQ15.ShiftMaskHalves | M451BSP/Library/CMSIS/DSP_Lib/Source/SupportFunctions/arm_q7_to_q15.c:96-100 | After `<< 8` and `& 0xFF00FF00`, each halfword holds the old low byte of that halfword on top and zero below. |
| ArmQ7ToQ15.ExtendedPair | M451BSP/Library/CMSIS/DSP_Lib/Source/SupportFunctions/arm_q7_to_q15.c:91-100 | The SXTB16 of a word, shifted and masked, holds bytes 0 and 2 of the word on top of its halfwords, with zero low bytes. |
| ArmQ7ToQ15.ExtendPairs | M451BSP/Library/CMSIS/DSP_Lib/Source/SupportFunctions/arm_q7_to_q15.c:91-100 | `in1` ends up with bytes 1 and 3 of the loaded word, and `in2` with bytes 0 and 2, each on top of a halfword with a zero low byte. |
| ArmQ7ToQ15.PackPairs | M451BSP/Library/CMSIS/DSP_Lib/Source/SupportFunctions/arm_q7_to_q15.c:102-111 | Little-endian: `out1` joins the bottom halfwords of `in2` and `in1`, and `out2` joins their top halfwords. Big-endian: the two targets are swapped. |
| ArmQ7ToQ15.WidenRegisters | M451BSP/Library/CMSIS/DSP_Lib/Source/SupportFunctions/arm_q7_to_q15.c:91-111 | For both byte orders, `out1` stores the widened bytes from address offsets 0 and 1 at halfword offsets 0 and 1. `out2` does the same for offsets 2 and 3. |
| ArmQ7ToQ15.GroupStoresExact | M451BSP/Library/CMSIS/DSP_Lib/Source/SupportFunctions/arm_q7_to_q15.c:114-115 | The two words stored by an unrolled iteration are, in address order, the scalar conversions of the four loaded samples. |
| ArmQ7ToQ15.WidenGroup | M451BSP/Library/CMSIS/DSP_Lib/Source/SupportFunctions/arm_q7_to_q15.c:88-115 | One unrolled iteration sets `pDst[i..i+3]` to the conversions of `pSrc[i..i+3]` and changes no other entry. |
| ArmQ7ToQ15.ArmQ7ToQ15 | M451BSP/Library/CMSIS/DSP_Lib/Source/SupportFunctions/arm_q7_to_q15.c:64-143 | M3/M4 build, either byte order: `pDst[n] = pSrc[n] * 256` for every n < blockSize. Later entries are unchanged, so blockSize 0 writes nothing. `pSrc` is not written. |
| ArmQ7ToQ15.ArmQ7ToQ15Cm0 | M451BSP/Library/CMSIS/DSP_Lib/Source/SupportFunctions/arm_q7_to_q15.c:125-142 | M0 build: the same result as the M3/M4 build, from the scalar loop alone. |
| ArmQ7ToQ15.BuildsAgree | M451BSP/Library/CMSIS/DSP_Lib/Source/SupportFunctions/arm_q7_to_q15.c:72-132 | The little-endian, big-endian and M0 builds leave identical destination buffers. |
| ArmQ7ToQ15.WidenExample | M451BSP/Library/CMSIS/DSP_Lib/Source/SupportFunctions/arm_q7_to_q15.c:58 | [1, -1, 127, -128] becomes [256, -256, 32512, -32768] in every build. |
| ArmNegateF32.Negate | M451BSP/Library/CMSIS/DSP_Lib/Source/BasicMathFunctions/arm_negate_f32.c:127 | Unary minus on a float32_t flips its sign bit. |
| ArmNegateF32.NegateFields | M451BSP/Library/CMSIS/DSP_Lib/Source/BasicMathFunctions/arm_negate_f32.c:91-94 | Unary minus keeps the exponent and fraction fields. |
| ArmNegateF32.FieldsDetermine | M451BSP/Library/CMSIS/DSP_Lib/Source/BasicMathFunctions/arm_negate_f32.c:47 | Sign, exponent and fraction together determine a float32_t, so the two facts above specify negation completely. |
| ArmNegateF32.NegateInvolution | M451BSP/Library/CMSIS/DSP_Lib/Source/BasicMathFunctions/arm_negate_f32.c:91-94 | Negating twice restores the bit pattern, signed zeros and NaNs included. |
| ArmNegateF32.NegateSpecials | M451BSP/Library/CMSIS/DSP_Lib/Source/BasicMathFunctions/arm_negate_f32.c:127 | A NaN stays a NaN. Infinities stay infinite, and +infinity and -infinity map to each other. |
| Binary32Value.NegateValue | M451BSP/Library/CMSIS/DSP_Lib/Source/BasicMathFunctions/arm_negate_f32.c:47 | On every finite float, including zeros and subnormals, the result stays finite and denotes the arithmetic negation of the input. |
| ArmNegateF32.NegateGroup | M451BSP/Library/CMSIS/DSP_Lib/Source/BasicMathFunctions/arm_negate_f32.c:85-100 | One unrolled iteration sets `pDst[i..i+3]` to the negations of the old `pSrc[i..i+3]`, even when `pSrc == pDst`, and changes no other entry. |
| ArmNegateF32.ArmNegateF32 | M451BSP/Library/CMSIS/DSP_Lib/Source/BasicMathFunctions/arm_negate_f32.c:64-131 | M3/M4 build: `pDst[n] = -pSrc[n]` (of the old contents) for every n < blockSize, also in place. Later entries are unchanged. A distinct `pSrc` is not written. |
| ArmNegateF32.ArmNegateF32Cm0 | M451BSP/Library/CMSIS/DSP_Lib/Source/BasicMathFunctions/arm_negate_f32.c:114-131 | M0 build: the same result from the scalar loop alone. |
| ArmNegateF32.BuildsAgree | M451BSP/Library/CMSIS/DSP_Lib/Source/BasicMathFunctions/arm_negate_f32.c:72-121 | The M3/M4 and M0 builds leave identical destination buffers. |
| ArmNegateF32.NegateTwiceInPlace | M451BSP/Library/CMSIS/DSP_Lib/Source/BasicMathFunctions/arm_negate_f32.c:82-131 | Running the kernel in place twice restores the whole buffer bit for bit. |
| ArmNegateF32.NegateExample | M451BSP/Library/CMSIS/DSP_Lib/Source/BasicMathFunctions/arm_negate_f32.c:47 | In place, [1.5, -2.0, +0.0, 3.25, NaN] becomes [-1.5, 2.0, -0.0, -3.25, NaN with the sign set]: one unrolled group and one tail sample. |

## Left out

- The headers `arm_math.h` and the CMSIS core SIMD headers are not part of this model.
  - `q7_t`, `q15_t`, `__SIMD32`, `__ROR`, `__SXTB16`, `__PKHBT` and `__PKHTB` are re-specified from the ARMv7-M instruction descriptions.
  - `Pkhtb` shifts arithmetically, as the PKHTB instruction does. A definition with a logical shift gives the same bottom halfword at the shift of 16 used here (`ArmMath.PkhtbHalfwords` holds for both).
- Floating-point arithmetic (rounding, FPU flags, NaN signalling) is not modelled.
  - A `float32_t` is its bit pattern, and unary minus is the sign-bit flip that IEEE 754 prescribes.
  - The real value is defined only for finite patterns, in `Binary32Value`.
- The q7_t source buffer holds the stored bytes (`array<bv8>`), and their values are read through `Q7OfBits`, because the unrolled loop reinterprets those bytes as a word.
  - The destination holds q15_t values, and the words stored to it are read back through `Q15OfBits`.
- `ArmQ7ToQ15.ArmQ7ToQ15`, `ArmQ7ToQ15.ArmQ7ToQ15Cm0` and `ArmQ7ToQ15.WidenGroup` require the source and destination to be different arrays.
  - The C code's buffers have different element types, and Dafny arrays are either the same object or disjoint, so overlapping buffers cannot be expressed here.
  - For `arm_negate_f32`, in-place use (`pSrc == pDst`) is modelled and proved.
- Partially overlapping (offset) source and destination buffers cannot be expressed with Dafny arrays. The C code never checks for them; callers must avoid them.
- A `blockSize` larger than a buffer is a caller error that the C code does not check; it appears as a `requires` on the array lengths.
- The scalar conversion is the value `x * 256`. C's left shift of a negative `int` is left undefined by the C standard, and the model does not reproduce that.
  - The unrolled path's `in1 << 8u` on a `q31_t` is modelled as the `bv32` shift the hardware performs.
- Cycle counts, the rest of the Cortex-M instruction set, and the other CMSIS-DSP functions are not part of this model.
