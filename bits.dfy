// Bit-level vocabulary shared by the three emulator cores: single-bit tests,
// the arithmetic right shift that C, C++ and C# perform on a signed 32-bit
// value, and the little-endian splitting of words into halfwords and bytes.

module Bits {

  /** A value, or none where the source returns a default or does nothing. */
  datatype Option<T> = None | Some(value: T)

  /** Bit `n` of a 32-bit word is set. */
  predicate Bit(v: bv32, n: bv32)
    requires n < 32
  {
    (v >> n) & 1 == 1
  }

  /** The sign bit (bit 31). */
  predicate Sign(v: bv32) {
    v & 0x8000_0000 != 0
  }

  /** The 0/1 word for a flag, as a C `bool` converts to an integer. */
  function B2W(b: bool): (w: bv32)
    ensures w <= 1 && (w == 1 <==> b)
  {
    if b then 1 else 0
  }

  /**
   * Arithmetic shift right by `n` (0 <= n < 32): the vacated high bits are
   * filled with copies of the sign bit. This is what `(int32_t)v >> n` does
   * with the compilers the C and C++ cores target and what `(int)v >> n`
   * does in C#.
   */
  function Asr(v: bv32, n: bv32): (r: bv32)
    requires n < 32
  {
    if Sign(v) then !((!v) >> n) else v >> n
  }

  /** Low and high halves of a word, and the word they make up. */
  function Lo16(v: bv32): bv16 { (v & 0xffff) as bv16 }
  function Hi16(v: bv32): bv16 { (v >> 16) as bv16 }
  function Join16(lo: bv16, hi: bv16): bv32 { (lo as bv32) | ((hi as bv32) << 16) }

  lemma Join16Split(v: bv32)
    ensures Join16(Lo16(v), Hi16(v)) == v
  {
  }

  lemma Split16Join(lo: bv16, hi: bv16)
    ensures Lo16(Join16(lo, hi)) == lo && Hi16(Join16(lo, hi)) == hi
  {
  }

  /** Low and high bytes of a halfword, and the halfword they make up. */
  function Lo8(h: bv16): bv8 { (h & 0xff) as bv8 }
  function Hi8(h: bv16): bv8 { (h >> 8) as bv8 }
  function Join8(lo: bv8, hi: bv8): bv16 { (lo as bv16) | ((hi as bv16) << 8) }

  lemma Join8Split(h: bv16)
    ensures Join8(Lo8(h), Hi8(h)) == h
  {
  }

  lemma Split8Join(lo: bv8, hi: bv8)
    ensures Lo8(Join8(lo, hi)) == lo && Hi8(Join8(lo, hi)) == hi
  {
  }

  /** Four-bit register field of an opcode at bit position `pos`, as an index. */
  function Field4(op: bv32, pos: bv32): (k: nat)
    requires pos <= 28
    ensures k < 16
  {
    ((op >> pos) & 0xf) as nat
  }

  /** Three-bit register field (Thumb low registers) at bit position `pos`. */
  function Field3(op: bv32, pos: bv32): (k: nat)
    requires pos <= 29
    ensures k < 8
  {
    ((op >> pos) & 0x7) as nat
  }

  // Array indices. A 32-bit index is taken apart into its four bytes, so
  // that the solver reasons about its value one byte at a time.

  /** Byte `k` (0 = least significant) of a word. */
  function ByteOf(v: bv32, k: bv32): bv8
    requires k < 4
  {
    ((v >> (8 * k)) & 0xff) as bv8
  }

  /** Two words with the same four bytes are equal. */
  lemma BytesMakeWord(v: bv32, w: bv32)
    requires ByteOf(v, 0) == ByteOf(w, 0) && ByteOf(v, 1) == ByteOf(w, 1)
    requires ByteOf(v, 2) == ByteOf(w, 2) && ByteOf(v, 3) == ByteOf(w, 3)
    ensures v == w
  {
  }

  /** The unsigned value of a word, as an array index. */
  function Unsigned(v: bv32): nat {
    ByteOf(v, 3) as nat * 0x100_0000 + ByteOf(v, 2) as nat * 0x1_0000 +
    ByteOf(v, 1) as nat * 0x100 + ByteOf(v, 0) as nat
  }

  lemma ByteBelow(a: bv8, b: bv8)
    requires a & b == a
    ensures a as nat <= b as nat
  {
  }

  lemma SameByte(a: bv8, b: bv8)
    requires a as nat == b as nat
    ensures a == b
  {
    assert (a as nat) as bv8 == a;
    assert (b as nat) as bv8 == b;
  }

  lemma Digits(a0: nat, a1: nat, a2: nat, a3: nat, b0: nat, b1: nat, b2: nat, b3: nat)
    requires a0 < 256 && a1 < 256 && a2 < 256 && a3 < 256
    requires b0 < 256 && b1 < 256 && b2 < 256 && b3 < 256
    requires a3 * 0x100_0000 + a2 * 0x1_0000 + a1 * 0x100 + a0 == b3 * 0x100_0000 + b2 * 0x1_0000 + b1 * 0x100 + b0
    ensures a0 == b0 && a1 == b1 && a2 == b2 && a3 == b3
  {
    LowDigit(a3 * 0x1_0000 + a2 * 0x100 + a1, a0, b3 * 0x1_0000 + b2 * 0x100 + b1, b0);
    LowDigit(a3 * 0x100 + a2, a1, b3 * 0x100 + b2, b1);
    LowDigit(a3, a2, b3, b2);
  }

  /** Base 256: equal numbers have equal low digits and equal high parts. */
  lemma LowDigit(ha: nat, a: nat, hb: nat, b: nat)
    requires a < 256 && b < 256 && ha * 256 + a == hb * 256 + b
    ensures a == b && ha == hb
  {
  }

  lemma MaskedByteBelow(v: bv32, mask: bv32, k: bv32)
    requires k < 4
    ensures ByteOf(v & mask, k) as nat <= ByteOf(mask, k) as nat
  {
    ByteBelow(ByteOf(v & mask, k), ByteOf(mask, k));
  }

  /** Masking a word cannot raise its value above the mask's. */
  lemma UnsignedMasked(v: bv32, mask: bv32)
    ensures Unsigned(v & mask) <= Unsigned(mask)
  {
    MaskedByteBelow(v, mask, 0);
    MaskedByteBelow(v, mask, 1);
    MaskedByteBelow(v, mask, 2);
    MaskedByteBelow(v, mask, 3);
  }

  /** Different words have different values. */
  lemma UnsignedInjective(v: bv32, w: bv32)
    requires Unsigned(v) == Unsigned(w)
    ensures v == w
  {
    Digits(ByteOf(v, 0) as nat, ByteOf(v, 1) as nat, ByteOf(v, 2) as nat, ByteOf(v, 3) as nat,
           ByteOf(w, 0) as nat, ByteOf(w, 1) as nat, ByteOf(w, 2) as nat, ByteOf(w, 3) as nat);
    SameByte(ByteOf(v, 0), ByteOf(w, 0));
    SameByte(ByteOf(v, 1), ByteOf(w, 1));
    SameByte(ByteOf(v, 2), ByteOf(w, 2));
    SameByte(ByteOf(v, 3), ByteOf(w, 3));
    BytesMakeWord(v, w);
  }

  predicate IsPowerOfTwo(size: bv32) {
    size != 0 && size & (size - 1) == 0
  }

  /** The powers of two a word can hold. */
  lemma PowerOfTwoSizes(size: bv32)
    requires IsPowerOfTwo(size)
    ensures size == 0x1 || size == 0x2 || size == 0x4 || size == 0x8 || size == 0x10 || size == 0x20 ||
            size == 0x40 || size == 0x80 || size == 0x100 || size == 0x200 || size == 0x400 || size == 0x800 ||
            size == 0x1000 || size == 0x2000 || size == 0x4000 || size == 0x8000 || size == 0x10000 || size == 0x20000 ||
            size == 0x40000 || size == 0x80000 || size == 0x100000 || size == 0x200000 || size == 0x400000 || size == 0x800000 ||
            size == 0x1000000 || size == 0x2000000 || size == 0x4000000 || size == 0x8000000 || size == 0x10000000 || size == 0x20000000 ||
            size == 0x40000000 || size == 0x80000000
  {
  }

  /** For a power of two, the mask `size - 1` is one below it. */
  lemma MaskBelowPowerOfTwo(size: bv32)
    requires IsPowerOfTwo(size)
    ensures Unsigned(size) == Unsigned(size - 1) + 1
  {
    PowerOfTwoSizes(size);
  }

  lemma MaskedBelowMask(size: bv32, v: bv32)
    ensures Unsigned(v & (size - 1)) <= Unsigned(size - 1)
  {
    UnsignedMasked(v, size - 1);
  }

  /** Masking with `size - 1` gives an index below a power-of-two `size`. */
  lemma MaskedBelowPowerOfTwo(size: bv32, v: bv32)
    requires IsPowerOfTwo(size)
    ensures Unsigned(v & (size - 1)) < Unsigned(size)
  {
    MaskedBelowMask(size, v);
    MaskBelowPowerOfTwo(size);
  }

  /** Setting bit 0 of an even word adds one to its value. */
  lemma UnsignedSetBit0(x: bv32)
    requires x & 1 == 0
    ensures Unsigned(x | 1) == Unsigned(x) + 1
  {
    SetBit0Bytes(x);
    SetBit0Byte(ByteOf(x, 0));
  }

  lemma SetBit0Bytes(x: bv32)
    requires x & 1 == 0
    ensures ByteOf(x | 1, 0) == ByteOf(x, 0) | 1 && ByteOf(x, 0) & 1 == 0
    ensures ByteOf(x | 1, 1) == ByteOf(x, 1) && ByteOf(x | 1, 2) == ByteOf(x, 2) && ByteOf(x | 1, 3) == ByteOf(x, 3)
  {
  }

  lemma SetBit0Byte(b: bv8)
    requires b & 1 == 0
    ensures (b | 1) as nat == b as nat + 1
  {
  }

  /** Setting bit 1 of a word whose bit 1 is clear adds two to its value. */
  lemma UnsignedSetBit1(x: bv32)
    requires x & 2 == 0
    ensures Unsigned(x | 2) == Unsigned(x) + 2
  {
    SetBit1Bytes(x);
    SetBit1Byte(ByteOf(x, 0));
  }

  lemma SetBit1Bytes(x: bv32)
    requires x & 2 == 0
    ensures ByteOf(x | 2, 0) == ByteOf(x, 0) | 2 && ByteOf(x, 0) & 2 == 0
    ensures ByteOf(x | 2, 1) == ByteOf(x, 1) && ByteOf(x | 2, 2) == ByteOf(x, 2) && ByteOf(x | 2, 3) == ByteOf(x, 3)
  {
  }

  lemma SetBit1Byte(b: bv8)
    requires b & 2 == 0
    ensures (b | 2) as nat == b as nat + 2
  {
  }

  // Byte stores indexed by value; an index past the end reads as 0 and
  // stores nothing, which the models rule out where the source cannot reach it.

  /** The byte in cell `k`. */
  function Peek(c: seq<bv8>, k: nat): bv8 {
    if k < |c| then c[k] else 0
  }

  /** The contents with cell `k` set to `val`. */
  function Poke(c: seq<bv8>, k: nat, val: bv8): seq<bv8> {
    if k < |c| then c[k := val] else c
  }
}
