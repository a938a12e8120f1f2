// Reference semantics of the ARMv4T features that the three cores implement,
// following the ARM Architecture Reference Manual: the condition field
// (section A3.2, table A3-1), the data-processing operand forms of the barrel
// shifter (addressing mode 1, section A5.1) and the N, Z, C, V conditions of
// the ALU (CarryFrom, BorrowFrom, OverflowFrom) and the block transfer
// addresses of addressing mode 4 (section A5.4). The emulator modules prove
// their shifters and flag helpers against these definitions, or exhibit
// where they depart from them.

module ArmRef {
  import opened Bits

  datatype Flags = Flags(n: bool, z: bool, c: bool, v: bool)

  /** Table A3-1. NV is the ARMv4 "never" condition. */
  function ConditionPassed(cond: bv32, f: Flags): bool
    requires cond < 16
  {
    if cond == 0x0 then f.z                          // EQ
    else if cond == 0x1 then !f.z                    // NE
    else if cond == 0x2 then f.c                     // CS
    else if cond == 0x3 then !f.c                    // CC
    else if cond == 0x4 then f.n                     // MI
    else if cond == 0x5 then !f.n                    // PL
    else if cond == 0x6 then f.v                     // VS
    else if cond == 0x7 then !f.v                    // VC
    else if cond == 0x8 then f.c && !f.z             // HI
    else if cond == 0x9 then !f.c || f.z             // LS
    else if cond == 0xa then f.n == f.v              // GE
    else if cond == 0xb then f.n != f.v              // LT
    else if cond == 0xc then !f.z && f.n == f.v      // GT
    else if cond == 0xd then f.z || f.n != f.v       // LE
    else if cond == 0xe then true                    // AL
    else false                                       // NV
  }

  /** Conditions come in complementary pairs: 2k and 2k+1 (k < 7) disagree on every flag state. */
  lemma ConditionPairs(cond: bv32, f: Flags)
    requires cond < 14 && cond & 1 == 0
    ensures ConditionPassed(cond + 1, f) == !ConditionPassed(cond, f)
  {
  }

  /** Result and carry-out of the barrel shifter. */
  datatype Shifted = Shifted(value: bv32, carry: bool)

  datatype ShiftType = LSL | LSR | ASR | ROR

  /** Bits 6:5 of a data-processing opcode select the shift. */
  function ShiftTypeOf(op: bv32): ShiftType {
    var t := (op >> 5) & 3;
    if t == 0 then LSL else if t == 1 then LSR else if t == 2 then ASR else ROR
  }

  /** Rotate right by 1..31 places. */
  function Ror(v: bv32, n: bv32): bv32
    requires 0 < n < 32
  {
    (v >> n) | (v << (32 - n))
  }

  lemma RorInverse(v: bv32, n: bv32)
    requires 0 < n < 32
    ensures Ror(Ror(v, n), 32 - n) == v
  {
  }

  /** Section A5.1.3: an 8-bit immediate rotated right by twice bits 11:8. */
  function ImmediateOperand(op: bv32, c: bool): Shifted {
    var rot := ((op >> 8) & 0xf) * 2;
    var imm := op & 0xff;
    if rot == 0 then Shifted(imm, c)
    else var v := Ror(imm, rot); Shifted(v, Sign(v))
  }

  /**
   * Sections A5.1.5, .7, .9, .11 and .13: a register shifted by a 5-bit
   * immediate. LSR #0 and ASR #0 encode a shift by 32; ROR #0 encodes RRX.
   */
  function ShiftByImmediate(t: ShiftType, amount: bv32, rm: bv32, c: bool): Shifted
    requires amount < 32
  {
    match t
    case LSL =>
      if amount == 0 then Shifted(rm, c) else Shifted(rm << amount, Bit(rm, 32 - amount))
    case LSR =>
      if amount == 0 then Shifted(0, Sign(rm)) else Shifted(rm >> amount, Bit(rm, amount - 1))
    case ASR =>
      if amount == 0 then Shifted(if Sign(rm) then 0xffff_ffff else 0, Sign(rm))
      else Shifted(Asr(rm, amount), Bit(rm, amount - 1))
    case ROR =>
      if amount == 0 then Shifted((B2W(c) << 31) | (rm >> 1), Bit(rm, 0))
      else Shifted(Ror(rm, amount), Bit(rm, amount - 1))
  }

  /**
   * Sections A5.1.6, .8, .10 and .12: a register shifted by the bottom byte
   * `amount` of another register.
   */
  function ShiftByRegister(t: ShiftType, amount: bv32, rm: bv32, c: bool): Shifted
    requires amount < 256
  {
    if amount == 0 then Shifted(rm, c)
    else match t
      case LSL =>
        if amount < 32 then Shifted(rm << amount, Bit(rm, 32 - amount))
        else if amount == 32 then Shifted(0, Bit(rm, 0))
        else Shifted(0, false)
      case LSR =>
        if amount < 32 then Shifted(rm >> amount, Bit(rm, amount - 1))
        else if amount == 32 then Shifted(0, Sign(rm))
        else Shifted(0, false)
      case ASR =>
        if amount < 32 then Shifted(Asr(rm, amount), Bit(rm, amount - 1))
        else Shifted(if Sign(rm) then 0xffff_ffff else 0, Sign(rm))
      case ROR =>
        var rot := amount & 0x1f;
        if rot == 0 then Shifted(rm, Sign(rm))
        else Shifted(Ror(rm, rot), Bit(rm, rot - 1))
  }

  /** A shift by register amount 1..31 behaves as the same shift by immediate. */
  lemma RegisterAgreesWithImmediate(t: ShiftType, amount: bv32, rm: bv32, c: bool)
    requires 0 < amount < 32
    ensures ShiftByRegister(t, amount, rm, c) == ShiftByImmediate(t, amount, rm, c)
  {
  }

  /** CarryFrom(a + b + cin): the unsigned sum needs a 33rd bit. */
  predicate CarryFrom(a: bv32, b: bv32, cin: bool) {
    ((a as bv64) + (b as bv64) + (B2W(cin) as bv64)) >> 32 != 0
  }

  /** NOT BorrowFrom(a - b): the unsigned subtraction does not go below zero. */
  predicate NotBorrowFrom(a: bv32, b: bv32) {
    a >= b
  }

  /**
   * NOT BorrowFrom(a - b - NOT cin): with a carry in there is no borrow when
   * a >= b; without one the subtraction of one more also needs a != b.
   */
  predicate NotBorrowFromWithCarry(a: bv32, b: bv32, cin: bool) {
    a >= b && (cin || a != b)
  }

  /** OverflowFrom for an addition a + b = r: operands agree in sign, result differs. */
  predicate OverflowFromAdd(a: bv32, b: bv32, r: bv32) {
    Sign(a) == Sign(b) && Sign(r) != Sign(a)
  }

  /** OverflowFrom for a subtraction a - b = r: operands differ in sign, result differs from a. */
  predicate OverflowFromSub(a: bv32, b: bv32, r: bv32) {
    Sign(a) != Sign(b) && Sign(r) != Sign(a)
  }

  /**
   * Addressing mode 4 (section A5.4): the first address of a block transfer
   * of `size` bytes (four per listed register) with base `rn`. Increment
   * after starts at Rn, increment before at Rn + 4, decrement after at
   * Rn - size + 4 and decrement before at Rn - size.
   */
  function MultipleStart(p: bool, u: bool, rn: bv32, size: bv32): bv32 {
    if u then (if p then rn + 4 else rn)
    else (if p then rn - size else rn - size + 4)
  }

  /** The base register after writeback: moved past the block in the direction of transfer. */
  function MultipleWriteBack(u: bool, rn: bv32, size: bv32): bv32 {
    if u then rn + size else rn - size
  }

  /**
   * Addressing modes 2 and 3 (sections A5.2 and A5.3): with P set the
   * access is at Rn plus or minus the offset (by U), with P clear at Rn.
   */
  function IndexedAddress(p: bool, u: bool, rn: bv32, offset: bv32): bv32 {
    if p then (if u then rn + offset else rn - offset) else rn
  }

  /** The base register after writeback, pre- or post-indexed: Rn plus or minus the offset. */
  function IndexedWriteBack(u: bool, rn: bv32, offset: bv32): bv32 {
    if u then rn + offset else rn - offset
  }

  /** The immediate offset of addressing mode 3: immedH (bits 11-8) above immedL (bits 3-0). */
  function SplitImmediate(op: bv32): bv32 {
    (((op >> 8) & 0xf) << 4) | (op & 0xf)
  }
}
