// src/gbaemu/gba/cpu/impl/arm/shift_inline.hpp: the barrel shifter of the
// C++ core. Each of the nine variants reads its operands through
// `registerRead` and leaves its result and carry-out in the global `shifter`
// struct, modelled here as the class Shifter. The registers `registerRead`
// sees in the current mode are the sequence `r`, and `cpsr.fields.flagC` is
// the parameter `c`.
//
// Seven variants are proved equal to the shifter of ArmRef. The two ASR
// variants shift logically where the architecture fills with the sign bit,
// and ASR #0 leaves 0 or 1 with the previous shifter carry; they take a
// `corrected` parameter that selects the sign-filling shift instead.

module CppShift {
  import opened Bits
  import ArmRef

  // ------------------------------------------------------------ operands

  /** Rm, bits 3-0. */
  function Rm(op: bv32): nat {
    Field4(op, 0)
  }

  /** Rs, bits 11-8. */
  function Rs(op: bv32): nat {
    Field4(op, 8)
  }

  /** `HEADER_SHIFT_RM_0`: the 5-bit immediate amount, bits 11-7. */
  function ImmediateAmount(op: bv32): (amount: bv32)
    ensures amount < 32
    ensures amount == (op >> 7) & 0x1f
  {
    (op & 0xf80) >> 7
  }

  /** Twelve ahead of the instruction: the PC as an operand of a register shift. */
  function PcOperand(pc: bv32): bv32 {
    pc + 4
  }

  /** `HEADER_SHIFT_RM_1`: Rs, 4 further on for the PC, cut to its bottom byte. */
  function RegisterAmount(r: seq<bv32>, op: bv32): (shift: bv32)
    requires |r| == 16
    ensures shift < 256
    ensures Rs(op) != 15 ==> shift == r[Rs(op)] & 0xff
    ensures Rs(op) == 15 ==> shift == PcOperand(r[15]) & 0xff
  {
    var rs := if Rs(op) == 15 then PcOperand(r[15]) else r[Rs(op)];
    rs & 0xff
  }

  /** `HEADER_SHIFT_RM_1`: the shifted value, Rm read 4 further on for the PC. */
  function RegisterValue(r: seq<bv32>, op: bv32): (value: bv32)
    requires |r| == 16
    ensures Rm(op) != 15 ==> value == r[Rm(op)]
    ensures Rm(op) == 15 ==> value == PcOperand(r[15])
  {
    if Rm(op) == 15 then PcOperand(r[15]) else r[Rm(op)]
  }

  /** The `ROR` macro of logic_inline.hpp: the left shift is by `-rotation & 0x1f`. */
  function RorMacro(v: bv32, rotation: bv32): bv32
    requires rotation < 32
  {
    (v >> rotation) | (v << ((-rotation) & 0x1f))
  }

  /** For a rotation of 1 to 31 the macro is the architecture's rotation. */
  lemma RorMacroIsRor(v: bv32, rotation: bv32)
    requires 0 < rotation < 32
    ensures RorMacro(v, rotation) == ArmRef.Ror(v, rotation)
  {
    assert (-rotation) & 0x1f == 32 - rotation;
  }

  /** `(v >> n) & 1`, as the variants compute their carry. */
  predicate CarryBit(v: bv32, n: bv32)
    requires n < 32
  {
    (v >> n) & 1 != 0
  }

  lemma CarryBitIsBit(v: bv32, n: bv32)
    requires n < 32
    ensures CarryBit(v, n) == Bit(v, n)
  {
  }

  /** `SIGN32`: bit 31 moved down to bit 0. */
  function Sign32(v: bv32): (s: bv32)
    ensures s <= 1 && (s == 1 <==> Sign(v))
  {
    v >> 31
  }

  // ---------------------------------------------------------- ASR as written

  /**
   * `shiftASR_Rm_0` as written: a logical shift for amounts 1-31, and for
   * ASR #0 the sign bit as the value 0 or 1 with the shifter carry of the
   * previous instruction left in place.
   */
  function AsrImmediateAsWritten(rm: bv32, amount: bv32, previous: bool): ArmRef.Shifted
    requires amount < 32
  {
    if amount != 0 then ArmRef.Shifted(rm >> amount, CarryBit(rm, amount - 1))
    else ArmRef.Shifted(Sign32(rm), previous)
  }

  /**
   * `shiftASR_Rm_1` as written: a logical shift for amounts 1-31; from 32 on
   * all ones or all zeros by the sign of the Rm read without the PC's
   * extra 4 (`rmRead`), where the other variants use `value`.
   */
  function AsrRegisterAsWritten(rmRead: bv32, value: bv32, shift: bv32, c: bool): ArmRef.Shifted
    requires shift < 256
  {
    if shift == 0 then ArmRef.Shifted(value, c)
    else if shift < 32 then ArmRef.Shifted(value >> shift, CarryBit(value, shift - 1))
    else if Sign32(rmRead) != 0 then ArmRef.Shifted(0xffff_ffff, true)
    else ArmRef.Shifted(0, false)
  }

  /** The ASR by immediate of either kind: as written, or the architecture's. */
  function AsrImmediateOf(rm: bv32, amount: bv32, previous: bool, c: bool, corrected: bool): ArmRef.Shifted
    requires amount < 32
  {
    if corrected then ArmRef.ShiftByImmediate(ArmRef.ASR, amount, rm, c)
    else AsrImmediateAsWritten(rm, amount, previous)
  }

  /** The ASR by register of either kind: as written, or the architecture's. */
  function AsrRegisterOf(rmRead: bv32, value: bv32, shift: bv32, c: bool, corrected: bool): ArmRef.Shifted
    requires shift < 256
  {
    if corrected then ArmRef.ShiftByRegister(ArmRef.ASR, shift, value, c)
    else AsrRegisterAsWritten(rmRead, value, shift, c)
  }

  /**
   * The immediate ASR as written yields the architecture's value exactly
   * for non-negative Rm: for a negative one the sign bit is lost.
   */
  lemma AsrImmediateAgreesIffNonNegative(rm: bv32, amount: bv32, previous: bool, c: bool)
    requires amount < 32
    ensures (AsrImmediateAsWritten(rm, amount, previous).value
             == ArmRef.ShiftByImmediate(ArmRef.ASR, amount, rm, c).value) <==> !Sign(rm)
  {
    if amount == 0 {
      ZeroAmountValue(rm);
    } else if Sign(rm) {
      LogicalClearsSign(rm, amount);
      AsrKeepsSign(rm, amount);
    } else {
      AsrOfNonNegative(rm, amount);
    }
  }

  lemma ZeroAmountValue(rm: bv32)
    ensures Sign32(rm) == (if Sign(rm) then 0xffff_ffff else 0) <==> !Sign(rm)
  {
  }

  lemma LogicalClearsSign(rm: bv32, amount: bv32)
    requires 0 < amount < 32
    ensures !Sign(rm >> amount)
  {
  }

  lemma AsrKeepsSign(rm: bv32, amount: bv32)
    requires 0 < amount < 32 && Sign(rm)
    ensures Sign(Asr(rm, amount))
  {
  }

  lemma AsrOfNonNegative(rm: bv32, amount: bv32)
    requires amount < 32 && !Sign(rm)
    ensures Asr(rm, amount) == rm >> amount
  {
  }

  /** For amounts 1-31 the carry as written is the architecture's: only the value is wrong. */
  lemma AsrImmediateCarryAgrees(rm: bv32, amount: bv32, previous: bool, c: bool)
    requires 0 < amount < 32
    ensures AsrImmediateAsWritten(rm, amount, previous).carry
            == ArmRef.ShiftByImmediate(ArmRef.ASR, amount, rm, c).carry
  {
    CarryBitIsBit(rm, amount - 1);
  }

  /**
   * `ASR r0, #1` and `ASR r0, #32` (encoded #0) with r0 = 0x8000_0000: the
   * code leaves 0x4000_0000 and 1 where the architecture leaves
   * 0xc000_0000 and 0xffff_ffff with carry set.
   */
  lemma AsrImmediateCounterexample(previous: bool, c: bool)
    ensures AsrImmediateAsWritten(0x8000_0000, 1, previous).value == 0x4000_0000
    ensures ArmRef.ShiftByImmediate(ArmRef.ASR, 1, 0x8000_0000, c).value == 0xc000_0000
    ensures AsrImmediateAsWritten(0x8000_0000, 0, false) == ArmRef.Shifted(1, false)
    ensures ArmRef.ShiftByImmediate(ArmRef.ASR, 0, 0x8000_0000, c) == ArmRef.Shifted(0xffff_ffff, true)
  {
  }

  /**
   * With Rm not the PC (`rmRead == value`), the register ASR as written
   * yields the architecture's result exactly when the amount is 0, at
   * least 32, or Rm is non-negative.
   */
  lemma AsrRegisterAgreesIff(value: bv32, shift: bv32, c: bool)
    requires shift < 256
    ensures (AsrRegisterAsWritten(value, value, shift, c)
             == ArmRef.ShiftByRegister(ArmRef.ASR, shift, value, c))
            <==> shift == 0 || shift >= 32 || !Sign(value)
  {
    if shift != 0 && shift < 32 {
      if Sign(value) {
        AsrRegisterDiffers(value, shift, c);
      } else {
        AsrRegisterShortAgrees(value, shift, c);
      }
    } else if shift != 0 {
      AsrRegisterLongAgrees(value, shift, c);
    }
  }

  lemma AsrRegisterDiffers(value: bv32, shift: bv32, c: bool)
    requires 0 < shift < 32 && Sign(value)
    ensures AsrRegisterAsWritten(value, value, shift, c).value
            != ArmRef.ShiftByRegister(ArmRef.ASR, shift, value, c).value
  {
    LogicalClearsSign(value, shift);
    AsrKeepsSign(value, shift);
  }

  lemma AsrRegisterShortAgrees(value: bv32, shift: bv32, c: bool)
    requires 0 < shift < 32 && !Sign(value)
    ensures AsrRegisterAsWritten(value, value, shift, c)
            == ArmRef.ShiftByRegister(ArmRef.ASR, shift, value, c)
  {
    AsrOfNonNegative(value, shift);
    CarryBitIsBit(value, shift - 1);
  }

  lemma AsrRegisterLongAgrees(value: bv32, shift: bv32, c: bool)
    requires 32 <= shift < 256
    ensures AsrRegisterAsWritten(value, value, shift, c)
            == ArmRef.ShiftByRegister(ArmRef.ASR, shift, value, c)
  {
  }

  /** `ASR r0, r1` with r0 = 0x8000_0000 and r1 = 4: 0x0800_0000 where the architecture gives 0xf800_0000. */
  lemma AsrRegisterCounterexample(c: bool)
    ensures AsrRegisterAsWritten(0x8000_0000, 0x8000_0000, 4, c).value == 0x0800_0000
    ensures ArmRef.ShiftByRegister(ArmRef.ASR, 4, 0x8000_0000, c).value == 0xf800_0000
  {
  }

  // ------------------------------------------------------- the variants

  // Each variant's branches as a function of its operands, and the proof
  // that it is the architecture's shifter.

  /** `shiftLSL_Rm_0`. */
  function LslImmediateForm(rm: bv32, amount: bv32, c: bool): ArmRef.Shifted
    requires amount < 32
  {
    if amount != 0 then ArmRef.Shifted(rm << amount, CarryBit(rm, 32 - amount))
    else ArmRef.Shifted(rm, c)
  }

  lemma LslImmediateIsReference(rm: bv32, amount: bv32, c: bool)
    requires amount < 32
    ensures LslImmediateForm(rm, amount, c) == ArmRef.ShiftByImmediate(ArmRef.LSL, amount, rm, c)
  {
    if amount != 0 {
      CarryBitIsBit(rm, 32 - amount);
    }
  }

  /** `shiftLSL_Rm_1`. */
  function LslRegisterForm(value: bv32, shift: bv32, c: bool): ArmRef.Shifted
    requires shift < 256
  {
    if shift == 0 then ArmRef.Shifted(value, c)
    else if shift < 32 then ArmRef.Shifted(value << shift, CarryBit(value, 32 - shift))
    else if shift == 32 then ArmRef.Shifted(0, value & 1 != 0)
    else ArmRef.Shifted(0, false)
  }

  lemma LslRegisterIsReference(value: bv32, shift: bv32, c: bool)
    requires shift < 256
    ensures LslRegisterForm(value, shift, c) == ArmRef.ShiftByRegister(ArmRef.LSL, shift, value, c)
  {
    if 0 < shift < 32 {
      CarryBitIsBit(value, 32 - shift);
    }
  }

  /** `shiftLSR_Rm_0`: #0 encodes a shift by 32. */
  function LsrImmediateForm(rm: bv32, amount: bv32): ArmRef.Shifted
    requires amount < 32
  {
    if amount != 0 then ArmRef.Shifted(rm >> amount, CarryBit(rm, amount - 1))
    else ArmRef.Shifted(0, Sign32(rm) != 0)
  }

  lemma LsrImmediateIsReference(rm: bv32, amount: bv32, c: bool)
    requires amount < 32
    ensures LsrImmediateForm(rm, amount) == ArmRef.ShiftByImmediate(ArmRef.LSR, amount, rm, c)
  {
    if amount != 0 {
      CarryBitIsBit(rm, amount - 1);
    }
  }

  /** `shiftLSR_Rm_1`. */
  function LsrRegisterForm(value: bv32, shift: bv32, c: bool): ArmRef.Shifted
    requires shift < 256
  {
    if shift == 0 then ArmRef.Shifted(value, c)
    else if shift < 32 then ArmRef.Shifted(value >> shift, CarryBit(value, shift - 1))
    else if shift == 32 then ArmRef.Shifted(0, Sign32(value) != 0)
    else ArmRef.Shifted(0, false)
  }

  lemma LsrRegisterIsReference(value: bv32, shift: bv32, c: bool)
    requires shift < 256
    ensures LsrRegisterForm(value, shift, c) == ArmRef.ShiftByRegister(ArmRef.LSR, shift, value, c)
  {
    if 0 < shift < 32 {
      CarryBitIsBit(value, shift - 1);
    }
  }

  /** `shiftROR_Rm_0`: #0 encodes RRX, C shifted in at the top. */
  function RorImmediateForm(rm: bv32, amount: bv32, c: bool): ArmRef.Shifted
    requires amount < 32
  {
    if amount != 0 then ArmRef.Shifted(RorMacro(rm, amount), CarryBit(rm, amount - 1))
    else ArmRef.Shifted((B2W(c) << 31) | (rm >> 1), rm & 1 != 0)
  }

  lemma RorImmediateIsReference(rm: bv32, amount: bv32, c: bool)
    requires amount < 32
    ensures RorImmediateForm(rm, amount, c) == ArmRef.ShiftByImmediate(ArmRef.ROR, amount, rm, c)
  {
    if amount != 0 {
      RorMacroIsRor(rm, amount);
      CarryBitIsBit(rm, amount - 1);
    }
  }

  /** `shiftROR_Rm_1`: a non-zero multiple of 32 keeps the value with carry bit 31. */
  function RorRegisterForm(value: bv32, shift: bv32, c: bool): ArmRef.Shifted
    requires shift < 256
  {
    var rotation := shift & 0x1f;
    if shift == 0 then ArmRef.Shifted(value, c)
    else if rotation != 0 then ArmRef.Shifted(RorMacro(value, rotation), CarryBit(value, rotation - 1))
    else ArmRef.Shifted(value, Sign32(value) != 0)
  }

  lemma RorRegisterIsReference(value: bv32, shift: bv32, c: bool)
    requires shift < 256
    ensures RorRegisterForm(value, shift, c) == ArmRef.ShiftByRegister(ArmRef.ROR, shift, value, c)
  {
    var rotation := shift & 0x1f;
    if shift != 0 && rotation != 0 {
      RorMacroIsRor(value, rotation);
      CarryBitIsBit(value, rotation - 1);
    }
  }

  /** `shiftImmediate`: the byte rotated right by twice bits 11-8, C kept for no rotation. */
  function ImmediateForm(op: bv32, c: bool): ArmRef.Shifted {
    var rotation := (op & 0xf00) >> 7;
    var immediate := op & 0xff;
    if rotation != 0 then
      var v := RorMacro(immediate, rotation);
      ArmRef.Shifted(v, Sign32(v) != 0)
    else ArmRef.Shifted(immediate, c)
  }

  lemma ImmediateIsReference(op: bv32, c: bool)
    ensures ImmediateForm(op, c) == ArmRef.ImmediateOperand(op, c)
  {
    RotationField(op);
    var rotation := (op & 0xf00) >> 7;
    if rotation != 0 {
      RorMacroIsRor(op & 0xff, rotation);
    }
  }

  lemma RotationField(op: bv32)
    ensures (op & 0xf00) >> 7 == ((op >> 8) & 0xf) * 2
    ensures (op & 0xf00) >> 7 < 32
  {
  }

  // ------------------------------------------------------------- shifter

  /** The global `shifter` struct: the operand and carry-out of the last shift. */
  class Shifter {
    var result: bv32
    var flagC: bool

    /** A static struct starts zeroed. */
    constructor ()
      ensures result == 0 && !flagC
    {
      result := 0;
      flagC := false;
    }

    function Out(): ArmRef.Shifted
      reads this
    {
      ArmRef.Shifted(result, flagC)
    }

    method Set(s: ArmRef.Shifted)
      modifies this
      ensures Out() == s
    {
      result, flagC := s.value, s.carry;
    }

    /** `shiftLSL_Rm_0`: LSL by a 5-bit immediate. */
    method LslImmediate(op: bv32, r: seq<bv32>, c: bool)
      requires |r| == 16
      modifies this
      ensures Out() == ArmRef.ShiftByImmediate(ArmRef.LSL, ImmediateAmount(op), r[Rm(op)], c)
    {
      var rmV, immediate := r[Rm(op)], ImmediateAmount(op);
      Set(LslImmediateForm(rmV, immediate, c));
      LslImmediateIsReference(rmV, immediate, c);
    }

    /** `shiftLSL_Rm_1`: LSL by Rs[7:0]. */
    method LslRegister(op: bv32, r: seq<bv32>, c: bool)
      requires |r| == 16
      modifies this
      ensures Out() == ArmRef.ShiftByRegister(ArmRef.LSL, RegisterAmount(r, op), RegisterValue(r, op), c)
    {
      var shift, value := RegisterAmount(r, op), RegisterValue(r, op);
      Set(LslRegisterForm(value, shift, c));
      LslRegisterIsReference(value, shift, c);
    }

    /** `shiftLSR_Rm_0`: LSR by a 5-bit immediate; #0 encodes #32. */
    method LsrImmediate(op: bv32, r: seq<bv32>, c: bool)
      requires |r| == 16
      modifies this
      ensures Out() == ArmRef.ShiftByImmediate(ArmRef.LSR, ImmediateAmount(op), r[Rm(op)], c)
    {
      var rmV, immediate := r[Rm(op)], ImmediateAmount(op);
      Set(LsrImmediateForm(rmV, immediate));
      LsrImmediateIsReference(rmV, immediate, c);
    }

    /** `shiftLSR_Rm_1`: LSR by Rs[7:0]. */
    method LsrRegister(op: bv32, r: seq<bv32>, c: bool)
      requires |r| == 16
      modifies this
      ensures Out() == ArmRef.ShiftByRegister(ArmRef.LSR, RegisterAmount(r, op), RegisterValue(r, op), c)
    {
      var shift, value := RegisterAmount(r, op), RegisterValue(r, op);
      Set(LsrRegisterForm(value, shift, c));
      LsrRegisterIsReference(value, shift, c);
    }

    /**
     * `shiftASR_Rm_0`: ASR by a 5-bit immediate, as written (a logical
     * shift; #0 leaves the sign as 0 or 1 and the carry as it was) or
     * corrected.
     */
    method AsrImmediate(op: bv32, r: seq<bv32>, c: bool, corrected: bool)
      requires |r| == 16
      modifies this
      ensures Out() == AsrImmediateOf(r[Rm(op)], ImmediateAmount(op), old(flagC), c, corrected)
    {
      Set(AsrImmediateOf(r[Rm(op)], ImmediateAmount(op), flagC, c, corrected));
    }

    /** `shiftASR_Rm_1`: ASR by Rs[7:0], as written or corrected. */
    method AsrRegister(op: bv32, r: seq<bv32>, c: bool, corrected: bool)
      requires |r| == 16
      modifies this
      ensures Out() == AsrRegisterOf(r[Rm(op)], RegisterValue(r, op), RegisterAmount(r, op), c, corrected)
    {
      Set(AsrRegisterOf(r[Rm(op)], RegisterValue(r, op), RegisterAmount(r, op), c, corrected));
    }

    /** `shiftROR_Rm_0`: ROR by a 5-bit immediate; #0 encodes RRX. */
    method RorImmediate(op: bv32, r: seq<bv32>, c: bool)
      requires |r| == 16
      modifies this
      ensures Out() == ArmRef.ShiftByImmediate(ArmRef.ROR, ImmediateAmount(op), r[Rm(op)], c)
    {
      var rmV, immediate := r[Rm(op)], ImmediateAmount(op);
      Set(RorImmediateForm(rmV, immediate, c));
      RorImmediateIsReference(rmV, immediate, c);
    }

    /** `shiftROR_Rm_1`: ROR by Rs[7:0]. */
    method RorRegister(op: bv32, r: seq<bv32>, c: bool)
      requires |r| == 16
      modifies this
      ensures Out() == ArmRef.ShiftByRegister(ArmRef.ROR, RegisterAmount(r, op), RegisterValue(r, op), c)
    {
      var shift, value := RegisterAmount(r, op), RegisterValue(r, op);
      Set(RorRegisterForm(value, shift, c));
      RorRegisterIsReference(value, shift, c);
    }

    /** `shiftImmediate`: the rotated 8-bit immediate. */
    method Immediate(op: bv32, c: bool)
      modifies this
      ensures Out() == ArmRef.ImmediateOperand(op, c)
    {
      Set(ImmediateForm(op, c));
      ImmediateIsReference(op, c);
    }
  }
}
