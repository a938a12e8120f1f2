// src/BitUtils.cs: single-expression bit helpers of the C# core.
// A C# `int` is a 32-bit two's complement word, modelled as bv32. C# reduces
// the count of a shift on a 32-bit operand to its low five bits and on a
// 64-bit operand to its low six bits; the functions below write that
// reduction out, since the callers rely on it (RotateRight32 by 0 shifts left
// by 32, which C# turns into a shift by 0).

module CsBitUtils {
  import opened Bits
  import ArmRef

  /**
   * `(value & (1 << bitNumber)) != 0`. The mask `1 << bitNumber` is an `int`;
   * widening both operands to `long` for the `&` keeps exactly bit
   * `bitNumber % 32` of `value`.
   */
  function BitTest32(value: bv32, bitNumber: bv32): bool {
    value & (1 << (bitNumber & 31)) != 0
  }

  lemma BitTest32IsBit(value: bv32, n: bv32)
    requires n < 32
    ensures BitTest32(value, n) <==> Bit(value, n)
  {
  }

  /** Beyond 0..31 the count wraps: bit n and bit n + 32 are the same test. */
  lemma BitTest32Wraps(value: bv32, n: bv32)
    ensures BitTest32(value, n + 32) == BitTest32(value, n)
  {
  }

  /** `(value & (1UL << bitNumber)) != 0`, count reduced modulo 64. */
  function BitTest64(value: bv64, bitNumber: bv32): bool {
    value & (1 << ((bitNumber & 63) as bv64)) != 0
  }

  lemma BitTest64IsBit(value: bv64, n: bv32)
    requires n < 64
    ensures BitTest64(value, n) <==> (value >> (n as bv64)) & 1 == 1
  {
  }

  /** `(value >> bits) | (value << (32 - bits))` with both counts reduced modulo 32. */
  function RotateRight32(value: bv32, bits: bv32): bv32 {
    (value >> (bits & 31)) | (value << ((32 - bits) & 31))
  }

  /** For 1..31 places this is the rotation of the ARM reference; by a multiple of 32 it is the identity. */
  lemma RotateRight32Spec(value: bv32, bits: bv32)
    ensures 0 < bits < 32 ==> RotateRight32(value, bits) == ArmRef.Ror(value, bits)
    ensures bits & 31 == 0 ==> RotateRight32(value, bits) == value
  {
    if 0 < bits < 32 {
      CountsInRange(bits);
    }
    if bits & 31 == 0 {
      CountsZero(bits);
    }
  }

  lemma CountsInRange(bits: bv32)
    requires 0 < bits < 32
    ensures bits & 31 == bits && (32 - bits) & 31 == 32 - bits
  {
  }

  lemma CountsZero(bits: bv32)
    requires bits & 31 == 0
    ensures (32 - bits) & 31 == 0
  {
  }

  /** Rotating by b and then by 32 - b gives back the original word. */
  lemma RotateRight32Inverse(value: bv32, bits: bv32)
    ensures RotateRight32(RotateRight32(value, bits), 32 - bits) == value
  {
    var n := bits & 31;
    if n != 0 {
      RotateRight32IsRor(value, bits);
      RotateRight32IsRor(RotateRight32(value, bits), 32 - bits);
      ArmRef.RorInverse(value, n);
    }
  }

  /** Only the low five bits of the count matter. */
  lemma RotateRight32IsRor(value: bv32, bits: bv32)
    requires bits & 31 != 0
    ensures (32 - bits) & 31 == 32 - (bits & 31)
    ensures RotateRight32(value, bits) == ArmRef.Ror(value, bits & 31)
  {
  }

  // `BitSet16`, `BitClear16` and `BitTest16` are called by the PPU and the
  // keypad but are not in src/BitUtils.cs; they are given here the meaning
  // their names and their 32-bit siblings give them: the mask `1 << bit` is
  // an `int` shift, its count reduced to five bits, cut to the 16 bits of
  // the `ushort` result.

  /** `(ushort)(1 << bit)`. */
  function Mask16(bit: bv16): bv16 {
    if bit & 31 < 16 then 1 << (bit & 15) else 0
  }

  /** Below 16 the mask is the single bit; from 16 to 31 it is cut off, and the count wraps at 32. */
  lemma Mask16Bits(bit: bv16)
    ensures bit < 16 ==> Mask16(bit) == 1 << bit
    ensures 16 <= bit < 32 ==> Mask16(bit) == 0
    ensures Mask16(bit + 32) == Mask16(bit)
  {
  }

  /** Below 16 the mask is the single bit. */
  lemma Mask16Low(bit: bv16)
    requires bit < 16
    ensures Mask16(bit) == 1 << bit
  {
  }

  function BitSet16(value: bv16, bit: bv16): bv16 {
    value | Mask16(bit)
  }

  function BitClear16(value: bv16, bit: bv16): bv16 {
    value & !Mask16(bit)
  }

  function BitTest16(value: bv16, bit: bv16): bool {
    value & Mask16(bit) != 0
  }
}
