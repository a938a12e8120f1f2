// src/core/cpu/op_arm_dataprocessing.c: the sixteen ARM data-processing
// handlers and their operand helpers `getOperand1` and `getOperand2`, over
// the CPU state of CCpu. The handlers differ only in the ALU function, in
// whether Rd is written and in how C and V are set, so one method takes the
// operation as a parameter.

module CArmDataProcessing {
  import opened Bits
  import ArmRef
  import CBitops
  import CDecoder
  import opened CCpu

  datatype AluOp = AndOp | EorOp | SubOp | RsbOp | AddOp | AdcOp | SbcOp | RscOp
                 | TstOp | TeqOp | CmpOp | CmnOp | OrrOp | MovOp | BicOp | MvnOp

  /** The handler that opcode bits 24-21 select, in the order of the ARM opcode field. */
  function AluOpOf(code: bv32): AluOp
    requires code < 16
  {
    [AndOp, EorOp, SubOp, RsbOp, AddOp, AdcOp, SbcOp, RscOp,
     TstOp, TeqOp, CmpOp, CmnOp, OrrOp, MovOp, BicOp, MvnOp][code as int]
  }

  /**
   * The decoder's data-processing entry for an opcode names the operation of
   * bits 24-21, and it only sends a test operation here when S is set (the
   * others are MRS, MSR and the like).
   */
  lemma DecodedOperation(op: bv32)
    ensures var h := CDecoder.ArmClass(CDecoder.ArmDecodeIndex(op));
            h.ArmDataProcessing? ==> h.op as bv32 == (op >> 21) & 0xf && h.op < 16
    ensures var h := CDecoder.ArmClass(CDecoder.ArmDecodeIndex(op));
            h.ArmDataProcessing? && IsTest(AluOpOf(h.op as bv32)) ==> SetsFlags(op)
  {
    var i := CDecoder.ArmDecodeIndex(op);
    CDecoder.ArmDataProcessingExactly(i);
    assert (i >> 5) & 0xf == ((op >> 21) & 0xf) as bv16;
    assert i & 0x190 == 0x100 <==> (op >> 23) & 3 == 2 && op & 0x10_0000 == 0;
  }

  /** TST, TEQ, CMP and CMN only set flags. */
  predicate IsTest(k: AluOp) {
    k == TstOp || k == TeqOp || k == CmpOp || k == CmnOp
  }

  /** The handlers that end in `setFlagsLogical`. */
  predicate IsLogical(k: AluOp) {
    k == AndOp || k == EorOp || k == TstOp || k == TeqOp || k == OrrOp || k == MovOp || k == BicOp || k == MvnOp
  }

  // ------------------------------------------------------------ operands

  /** `getOperand1`: Rn, read 4 further on when it is r15 in a register-shift form. */
  function Operand1(r: seq<bv32>, op: bv32): bv32
    requires |r| == 16
  {
    var rn := Field4(op, 16);
    if rn != 15 then r[rn]
    else if op & 0x0200_0000 != 0 then r[15]
    else if op & 0x10 != 0 then r[15] + 4
    else r[15]
  }

  /** The immediate form of `getOperand2`: the byte rotated right by twice bits 11-8. */
  function ImmediateForm(op: bv32, c: bool): ArmRef.Shifted {
    var immediate := op & 0xff;
    var shift := ((op >> 8) & 0xf) << 1;
    if shift == 0 then ArmRef.Shifted(immediate, c)
    else
      var v := CBitops.RotateRight(immediate, shift);
      ArmRef.Shifted(v, v >> 31 != 0)
  }

  /**
   * The register-shift form: shift type `t` by the amount `shift`, which
   * this handler takes from Rs[7:0]. The Thumb shifts by register follow
   * the same branches on the whole of Rs.
   */
  function RegisterShiftForm(t: bv32, rm: bv32, shift: bv32, c: bool): ArmRef.Shifted {
    if t == 0 then
      if shift == 0 then ArmRef.Shifted(rm, c)
      else if shift < 32 then ArmRef.Shifted(rm << shift, (rm >> (32 - shift)) & 1 != 0)
      else if shift == 32 then ArmRef.Shifted(0, rm & 1 != 0)
      else ArmRef.Shifted(0, false)
    else if t == 1 then
      if shift == 0 then ArmRef.Shifted(rm, c)
      else if shift < 32 then ArmRef.Shifted(rm >> shift, (rm >> (shift - 1)) & 1 != 0)
      else if shift == 32 then ArmRef.Shifted(0, rm & 0x8000_0000 != 0)
      else ArmRef.Shifted(0, false)
    else if t == 2 then
      if shift == 0 then ArmRef.Shifted(rm, c)
      else if shift < 32 then ArmRef.Shifted(Asr(rm, shift), (rm >> (shift - 1)) & 1 != 0)
      else ArmRef.Shifted(Asr(rm, 31), rm & 0x8000_0000 != 0)
    else
      var rotation := shift & 0x1f;
      if shift == 0 then ArmRef.Shifted(rm, c)
      else if rotation == 0 then ArmRef.Shifted(rm, rm & 0x8000_0000 != 0)
      else ArmRef.Shifted(CBitops.RotateRight(rm, rotation), (rm >> (rotation - 1)) & 1 != 0)
  }

  /** The immediate-shift form: shift type `t` by bits 11-7. */
  function ImmediateShiftForm(t: bv32, rm: bv32, amount: bv32, c: bool): ArmRef.Shifted
    requires amount < 32
  {
    if t == 0 then
      if amount == 0 then ArmRef.Shifted(rm, c)
      else ArmRef.Shifted(rm << amount, (rm >> (32 - amount)) & 1 != 0)
    else if t == 1 then
      if amount == 0 then ArmRef.Shifted(0, rm & 0x8000_0000 != 0)
      else ArmRef.Shifted(rm >> amount, (rm >> (amount - 1)) & 1 != 0)
    else if t == 2 then
      if amount == 0 then ArmRef.Shifted(Asr(rm, 31), rm & 0x8000_0000 != 0)
      else ArmRef.Shifted(Asr(rm, amount), (rm >> (amount - 1)) & 1 != 0)
    else
      if amount == 0 then ArmRef.Shifted((rm >> 1) | (if c then 0x8000_0000 else 0), rm & 1 != 0)
      else ArmRef.Shifted(CBitops.RotateRight(rm, amount), (rm >> (amount - 1)) & 1 != 0)
  }

  /** Rm as the register-shift form reads it: r15 is 4 further on. */
  function ShiftedRm(r: seq<bv32>, op: bv32): bv32
    requires |r| == 16
  {
    if Field4(op, 0) == 15 then r[15] + 4 else r[Field4(op, 0)]
  }

  /** `getOperand2`: the shifter operand and the carry it leaves in `g_cpuShifterCarry`. */
  function Operand2(r: seq<bv32>, op: bv32, c: bool): ArmRef.Shifted
    requires |r| == 16
  {
    if op & 0x0200_0000 != 0 then ImmediateForm(op, c)
    else if op & 0x10 != 0 then RegisterShiftForm((op & 0x60) >> 5, ShiftedRm(r, op), r[Field4(op, 8)] & 0xff, c)
    else ImmediateShiftForm((op & 0x60) >> 5, r[Field4(op, 0)], (op & 0xf80) >> 7, c)
  }

  /**
   * The shifter operand of section A5.1 of the ARM Architecture Reference
   * Manual: Rs[7:0] as the register amount, and Rm = PC reading 12 ahead
   * of the instruction (r15 + 4) only in the register-shift form.
   */
  function ReferenceOperand2(r: seq<bv32>, op: bv32, c: bool): ArmRef.Shifted
    requires |r| == 16
  {
    if op & 0x0200_0000 != 0 then ArmRef.ImmediateOperand(op, c)
    else if op & 0x10 != 0 then
      ArmRef.ShiftByRegister(ArmRef.ShiftTypeOf(op), r[Field4(op, 8)] & 0xff, ShiftedRm(r, op), c)
    else ArmRef.ShiftByImmediate(ArmRef.ShiftTypeOf(op), (op >> 7) & 0x1f, r[Field4(op, 0)], c)
  }

  /** Every form of `getOperand2`, every shift type and amount, is the architecture's shifter operand. */
  lemma Operand2IsReference(r: seq<bv32>, op: bv32, c: bool)
    requires |r| == 16
    ensures Operand2(r, op, c) == ReferenceOperand2(r, op, c)
  {
    if op & 0x0200_0000 != 0 {
      ImmediateFormIsReference(op, c);
    } else {
      var t := (op & 0x60) >> 5;
      ShiftTypeField(op);
      if op & 0x10 != 0 {
        var rm, shift := ShiftedRm(r, op), r[Field4(op, 8)] & 0xff;
        if t == 0 {
          RegisterLsl(rm, shift, c);
        } else if t == 1 {
          RegisterLsr(rm, shift, c);
        } else if t == 2 {
          RegisterAsr(rm, shift, c);
        } else {
          RegisterRor(rm, shift, c);
        }
      } else {
        var rm, amount := r[Field4(op, 0)], (op & 0xf80) >> 7;
        assert amount == (op >> 7) & 0x1f;
        if t == 0 {
          ImmediateLsl(rm, amount, c);
        } else if t == 1 {
          ImmediateLsr(rm, amount, c);
        } else if t == 2 {
          ImmediateAsr(rm, amount, c);
        } else {
          ImmediateRor(rm, amount, c);
        }
      }
    }
  }

  lemma ShiftTypeField(op: bv32)
    ensures var t := (op & 0x60) >> 5;
            t < 4 &&
            (t == 0 <==> ArmRef.ShiftTypeOf(op) == ArmRef.LSL) &&
            (t == 1 <==> ArmRef.ShiftTypeOf(op) == ArmRef.LSR) &&
            (t == 2 <==> ArmRef.ShiftTypeOf(op) == ArmRef.ASR) &&
            (t == 3 <==> ArmRef.ShiftTypeOf(op) == ArmRef.ROR)
  {
    assert (op & 0x60) >> 5 == (op >> 5) & 3;
  }

  lemma ImmediateFormIsReference(op: bv32, c: bool)
    ensures ImmediateForm(op, c) == ArmRef.ImmediateOperand(op, c)
  {
    var shift := ((op >> 8) & 0xf) << 1;
    assert shift == ((op >> 8) & 0xf) * 2;
    if shift != 0 {
      CBitops.RotateRightIsRor(op & 0xff, shift);
      TopBit(CBitops.RotateRight(op & 0xff, shift));
    }
  }

  /** `v >> 31 != 0` is the sign bit. */
  lemma TopBit(v: bv32)
    ensures v >> 31 != 0 <==> Sign(v)
  {
  }

  lemma RegisterLsl(rm: bv32, shift: bv32, c: bool)
    requires shift < 256
    ensures RegisterShiftForm(0, rm, shift, c) == ArmRef.ShiftByRegister(ArmRef.LSL, shift, rm, c)
  {
  }

  lemma RegisterLsr(rm: bv32, shift: bv32, c: bool)
    requires shift < 256
    ensures RegisterShiftForm(1, rm, shift, c) == ArmRef.ShiftByRegister(ArmRef.LSR, shift, rm, c)
  {
  }

  lemma RegisterAsr(rm: bv32, shift: bv32, c: bool)
    requires shift < 256
    ensures RegisterShiftForm(2, rm, shift, c) == ArmRef.ShiftByRegister(ArmRef.ASR, shift, rm, c)
  {
  }

  lemma RegisterRor(rm: bv32, shift: bv32, c: bool)
    requires shift < 256
    ensures RegisterShiftForm(3, rm, shift, c) == ArmRef.ShiftByRegister(ArmRef.ROR, shift, rm, c)
  {
    var rotation := shift & 0x1f;
    if shift != 0 && rotation != 0 {
      CBitops.RotateRightIsRor(rm, rotation);
    }
  }

  lemma ImmediateLsl(rm: bv32, amount: bv32, c: bool)
    requires amount < 32
    ensures ImmediateShiftForm(0, rm, amount, c) == ArmRef.ShiftByImmediate(ArmRef.LSL, amount, rm, c)
  {
  }

  lemma ImmediateLsr(rm: bv32, amount: bv32, c: bool)
    requires amount < 32
    ensures ImmediateShiftForm(1, rm, amount, c) == ArmRef.ShiftByImmediate(ArmRef.LSR, amount, rm, c)
  {
  }

  lemma ImmediateAsr(rm: bv32, amount: bv32, c: bool)
    requires amount < 32
    ensures ImmediateShiftForm(2, rm, amount, c) == ArmRef.ShiftByImmediate(ArmRef.ASR, amount, rm, c)
  {
    if amount == 0 {
      SignFill(rm);
    }
  }

  /** `(int32_t)rm >> 31` is all ones or all zeros by the sign. */
  lemma SignFill(rm: bv32)
    ensures Asr(rm, 31) == if Sign(rm) then 0xffff_ffff else 0
  {
  }

  lemma ImmediateRor(rm: bv32, amount: bv32, c: bool)
    requires amount < 32
    ensures ImmediateShiftForm(3, rm, amount, c) == ArmRef.ShiftByImmediate(ArmRef.ROR, amount, rm, c)
  {
    if amount != 0 {
      CBitops.RotateRightIsRor(rm, amount);
    }
  }

  // ----------------------------------------------------------------- ALU

  /** The 64-bit sum of ADC, as the handler computes it in a `uint64_t`. */
  function WideSum(a: bv32, b: bv32, c: bool): bv64 {
    (a as bv64) + (b as bv64) + (B2W(c) as bv64)
  }

  /** The value each handler computes; ADC keeps the low word of its 64-bit sum. */
  function AluResult(k: AluOp, a: bv32, b: bv32, c: bool): bv32 {
    match k
    case AndOp => a & b
    case EorOp => a ^ b
    case SubOp => a - b
    case RsbOp => b - a
    case AddOp => a + b
    case AdcOp => (WideSum(a, b, c) & 0xffff_ffff) as bv32
    case SbcOp => a - b - B2W(!c)
    case RscOp => b - a - B2W(!c)
    case TstOp => a & b
    case TeqOp => a ^ b
    case CmpOp => a - b
    case CmnOp => a + b
    case OrrOp => a | b
    case MovOp => b
    case BicOp => a & !b
    case MvnOp => !b
  }

  /** The carry each arithmetic handler sets, from the operands, the old carry and the result. */
  function ArithmeticCarry(k: AluOp, a: bv32, b: bv32, c: bool, result: bv32): bool {
    match k
    case SubOp => CBitops.GetCarrySub(a, b)
    case CmpOp => CBitops.GetCarrySub(a, b)
    case RsbOp => CBitops.GetCarrySub(b, a)
    case AddOp => result < a
    case CmnOp => result < a
    case AdcOp => WideSum(a, b, c) > 0xffff_ffff
    case SbcOp => CBitops.GetCarrySbc(a, b, c)
    case RscOp => CBitops.GetCarrySbc(b, a, c)
    case _ => c
  }

  /** The overflow each arithmetic handler sets. */
  function ArithmeticOverflow(k: AluOp, a: bv32, b: bv32, v: bool, result: bv32): bool {
    match k
    case SubOp => CBitops.GetOverflowSub(a, b, result)
    case CmpOp => CBitops.GetOverflowSub(a, b, result)
    case SbcOp => CBitops.GetOverflowSub(a, b, result)
    case RsbOp => CBitops.GetOverflowSub(b, a, result)
    case RscOp => CBitops.GetOverflowSub(b, a, result)
    case AddOp => CBitops.GetOverflowAdd(a, b, result)
    case CmnOp => CBitops.GetOverflowAdd(a, b, result)
    case AdcOp => CBitops.GetOverflowAdd(a, b, result)
    case _ => v
  }

  /** The low word of ADC's 64-bit sum is the 32-bit sum with the carry. */
  lemma AdcResultWraps(a: bv32, b: bv32, c: bool)
    ensures AluResult(AdcOp, a, b, c) == a + b + B2W(c)
  {
    if c {
      AdcWrapsWithCarry(a, b);
    } else {
      AdcWrapsWithoutCarry(a, b);
    }
  }

  lemma AdcWrapsWithCarry(a: bv32, b: bv32)
    ensures ((a as bv64 + b as bv64 + 1) & 0xffff_ffff) as bv32 == a + b + 1
  {
  }

  lemma AdcWrapsWithoutCarry(a: bv32, b: bv32)
    ensures ((a as bv64 + b as bv64 + 0) & 0xffff_ffff) as bv32 == a + b
  {
  }

  /** C after SUB, CMP and RSB is NOT BorrowFrom of the subtraction. */
  lemma SubtractCarries(a: bv32, b: bv32, c: bool, result: bv32)
    ensures ArithmeticCarry(SubOp, a, b, c, result) <==> ArmRef.NotBorrowFrom(a, b)
    ensures ArithmeticCarry(CmpOp, a, b, c, result) <==> ArmRef.NotBorrowFrom(a, b)
    ensures ArithmeticCarry(RsbOp, a, b, c, result) <==> ArmRef.NotBorrowFrom(b, a)
  {
  }

  /** C after SBC and RSC is NOT BorrowFrom of the subtraction of the operands and NOT C. */
  lemma SubtractWithCarryCarries(a: bv32, b: bv32, c: bool, result: bv32)
    ensures ArithmeticCarry(SbcOp, a, b, c, result) <==> ArmRef.NotBorrowFromWithCarry(a, b, c)
    ensures ArithmeticCarry(RscOp, a, b, c, result) <==> ArmRef.NotBorrowFromWithCarry(b, a, c)
  {
    CBitops.CarrySbcIsReference(a, b, c);
    CBitops.CarrySbcIsReference(b, a, c);
  }

  /** C after ADC is CarryFrom of the three-operand sum. */
  lemma AddWithCarryCarry(a: bv32, b: bv32, c: bool, result: bv32)
    ensures ArithmeticCarry(AdcOp, a, b, c, result) <==> ArmRef.CarryFrom(a, b, c)
  {
    AdcCarryIsReference(a, b, c);
  }

  /** ADD and CMN set C exactly when the sum carries out. */
  lemma AddCarries(a: bv32, b: bv32, c: bool)
    ensures ArithmeticCarry(AddOp, a, b, c, a + b) <==> ArmRef.CarryFrom(a, b, false)
    ensures ArithmeticCarry(CmnOp, a, b, c, a + b) <==> ArmRef.CarryFrom(a, b, false)
  {
    AddCarry(a, b);
    AddWraps(a, b);
  }

  /** V after an arithmetic handler is OverflowFrom of its addition or subtraction, for every result word. */
  lemma OverflowsAreReference(a: bv32, b: bv32, v: bool, result: bv32)
    ensures ArithmeticOverflow(SubOp, a, b, v, result) <==> ArmRef.OverflowFromSub(a, b, result)
    ensures ArithmeticOverflow(CmpOp, a, b, v, result) <==> ArmRef.OverflowFromSub(a, b, result)
    ensures ArithmeticOverflow(SbcOp, a, b, v, result) <==> ArmRef.OverflowFromSub(a, b, result)
    ensures ArithmeticOverflow(RsbOp, a, b, v, result) <==> ArmRef.OverflowFromSub(b, a, result)
    ensures ArithmeticOverflow(RscOp, a, b, v, result) <==> ArmRef.OverflowFromSub(b, a, result)
    ensures ArithmeticOverflow(AddOp, a, b, v, result) <==> ArmRef.OverflowFromAdd(a, b, result)
    ensures ArithmeticOverflow(CmnOp, a, b, v, result) <==> ArmRef.OverflowFromAdd(a, b, result)
    ensures ArithmeticOverflow(AdcOp, a, b, v, result) <==> ArmRef.OverflowFromAdd(a, b, result)
  {
    CBitops.OverflowSubIsReference(a, b, result);
    CBitops.OverflowSubIsReference(b, a, result);
    CBitops.OverflowAddIsReference(a, b, result);
  }

  /** ADC's test `sum > UINT32_MAX` is the 33rd bit of the sum. */
  lemma AdcCarryIsReference(a: bv32, b: bv32, c: bool)
    ensures WideSum(a, b, c) > 0xffff_ffff <==> ArmRef.CarryFrom(a, b, c)
  {
    var w := WideSum(a, b, c);
    assert w > 0xffff_ffff <==> w >> 32 != 0;
  }

  lemma AddCarry(a: bv32, b: bv32)
    ensures ArmRef.CarryFrom(a, b, false) ==> a + b < a
  {
  }

  lemma AddWraps(a: bv32, b: bv32)
    ensures a + b < a ==> ArmRef.CarryFrom(a, b, false)
  {
  }

  // --------------------------------------------------------- the handlers

  /** S, bit 20. */
  predicate SetsFlags(op: bv32) {
    op & 0x10_0000 != 0
  }

  /** What the ALU step of a handler yields: the result and, for the arithmetic handlers, C and V. */
  datatype AluOut = AluOut(result: bv32, carry: bool, overflow: bool)

  /** The ALU step of handler `k` on the operands, with the carry and overflow flags before it. */
  function Alu(k: AluOp, a: bv32, b: bv32, c: bool, v: bool): AluOut {
    var result := AluResult(k, a, b, c);
    AluOut(result, ArithmeticCarry(k, a, b, c, result), ArithmeticOverflow(k, a, b, v, result))
  }

  /**
   * One data-processing handler on the state `s`: the operands, the ALU,
   * then the rest of the handler.
   */
  function DataProcessingSpec(s: CpuState, k: AluOp, op: bv32): (s': CpuState)
    requires Good(s)
    ensures Good(s')
  {
    var a := Operand1(s.banks.r, op);
    var shifted := Operand2(s.banks.r, op, s.psr.c);
    Complete(s, k, Field4(op, 12), SetsFlags(op), shifted.carry, Alu(k, a, shifted.value, s.psr.c, s.psr.v))
  }

  /**
   * The handler after its ALU step: the shifter carry stored, the write of
   * Rd (a jump when Rd is r15) unless the handler is a test, then with S
   * either the SPSR copied into the CPSR (Rd = r15) or the flags.
   */
  function Complete(s: CpuState, k: AluOp, rd: nat, setFlags: bool, shifterCarry: bool, out: AluOut): (s': CpuState)
    requires Good(s) && rd < 16
    ensures Good(s')
  {
    FlagsStep(WriteBack(s, k, rd, shifterCarry, out.result), k, rd, setFlags, out)
  }

  /** The shifter carry stored, then Rd written unless the handler is a test. */
  function WriteBack(s: CpuState, k: AluOp, rd: nat, shifterCarry: bool, result: bv32): (s': CpuState)
    requires Good(s) && rd < 16
    ensures Good(s')
  {
    var s1 := s.(shifterCarry := shifterCarry);
    if IsTest(k) then s1 else WriteRegisterSpec(s1, rd, result)
  }

  /** With S: the SPSR copied into the CPSR when a writing handler's Rd is r15, otherwise the flags. */
  function FlagsStep(s: CpuState, k: AluOp, rd: nat, setFlags: bool, out: AluOut): (s': CpuState)
    requires Good(s)
    ensures Good(s')
    ensures IsTest(k) || rd != 15 || !setFlags ==> s' == s.(psr := s'.psr) && s'.psr.mode == s.psr.mode
  {
    if !setFlags then s
    else if !IsTest(k) && rd == 15 then SetCpsrSpec(s, SpsrOf(s))
    else if IsLogical(k) then LogicalFlagsSpec(s, out.result)
    else FlagsAfterArithmetic(s, out)
  }

  /** `setFlagsArithmetical`, then the handler's own C and V. */
  function FlagsAfterArithmetic(s: CpuState, out: AluOut): (s': CpuState)
    ensures s' == s.(psr := s'.psr) && s'.psr.mode == s.psr.mode
  {
    var f := ArithmeticalFlagsSpec(s, out.result);
    f.(psr := f.psr.(c := out.carry, v := out.overflow))
  }

  /** TST, TEQ, CMP and CMN never change a register, whatever they compute. */
  lemma TestsNeverWrite(s: CpuState, k: AluOp, rd: nat, setFlags: bool, shifterCarry: bool, out: AluOut)
    requires Good(s) && IsTest(k) && rd < 16
    ensures var s' := Complete(s, k, rd, setFlags, shifterCarry, out);
            s'.banks == s.banks && s'.stage == s.stage && s'.spsr == s.spsr
  {
  }

  /** The other handlers with Rd below r15 change only Rd among the registers. */
  lemma WritesOnlyRd(s: CpuState, k: AluOp, rd: nat, setFlags: bool, shifterCarry: bool, out: AluOut)
    requires Good(s) && !IsTest(k) && rd < 15
    ensures var s' := Complete(s, k, rd, setFlags, shifterCarry, out);
            s'.banks == s.banks.(r := s.banks.r[rd := out.result]) &&
            s'.stage == s.stage && s'.spsr == s.spsr
  {
  }

  /** Rd is set to the ALU result of Rn and the architecture's shifter operand. */
  lemma WritesRd(s: CpuState, k: AluOp, op: bv32)
    requires Good(s) && !IsTest(k) && Field4(op, 12) < 15
    ensures var b := ReferenceOperand2(s.banks.r, op, s.psr.c).value;
            DataProcessingSpec(s, k, op).banks.r ==
              s.banks.r[Field4(op, 12) := AluResult(k, Operand1(s.banks.r, op), b, s.psr.c)]
  {
    var shifted := Operand2(s.banks.r, op, s.psr.c);
    Operand2IsReference(s.banks.r, op, s.psr.c);
    WritesOnlyRd(s, k, Field4(op, 12), SetsFlags(op), shifted.carry, Alu(k, Operand1(s.banks.r, op), shifted.value, s.psr.c, s.psr.v));
  }

  /**
   * With S, an arithmetic handler that does not restore the CPSR sets Z and
   * N from its result and C and V as its ALU step computed them, and keeps
   * the other bits of the CPSR.
   */
  lemma ArithmeticSetsFlags(s: CpuState, k: AluOp, rd: nat, out: AluOut)
    requires Good(s) && !IsLogical(k) && (IsTest(k) || rd != 15)
    ensures FlagsStep(s, k, rd, true, out).psr ==
              s.psr.(z := out.result == 0, n := Sign(out.result), c := out.carry, v := out.overflow)
  {
  }

  /** With S, a logical handler that does not restore the CPSR takes C from the shifter and keeps V. */
  lemma LogicalSetsFlags(s: CpuState, k: AluOp, rd: nat, out: AluOut)
    requires Good(s) && IsLogical(k) && (IsTest(k) || rd != 15)
    ensures FlagsStep(s, k, rd, true, out).psr ==
              s.psr.(z := out.result == 0, n := Sign(out.result), c := s.shifterCarry)
  {
  }

  /**
   * With S and Rd = r15 in a user mode, whose SPSR is the CPSR, the copy
   * leaves the flags, the mode and r0-r14 as they were: only the jump
   * remains.
   */
  lemma UserModeRestoreKeepsCpsr(s: CpuState, k: AluOp, shifterCarry: bool, out: AluOut)
    requires Good(s) && UsesUserBank(s.psr.mode) && !IsTest(k)
    ensures var s' := Complete(s, k, 15, true, shifterCarry, out);
            s'.psr == s.psr && s'.banks.r[..15] == s.banks.r[..15] && s'.stage == FlushState
  {
    var s2 := WriteRegisterSpec(s.(shifterCarry := shifterCarry), 15, out.result);
    GetThenSetCpsr(s2.psr);
    UserReload(s2.banks, s2.psr.mode);
  }

  /** Switching from a user mode to itself saves and reloads r8-r14 unchanged. */
  lemma UserReload(b: Banked, m: bv32)
    requires WellFormed(b) && UsesUserBank(m)
    ensures ChangeModeAsWritten(b, m, m).r == b.r
  {
    SavesAgree(b, m);
    SaveShape(b, m);
    var saved := SaveBank(b, m);
    LoadShape(saved, m);
    Rebuilt(b, LoadBank(saved, m), m);
  }

  /**
   * `cpuOpcodeArmAnd` ... `cpuOpcodeArmMvn`, the handler of operation `k`.
   * MOV and MVN do not read Rn; their result does not depend on `a`.
   */
  method DataProcessing(cpu: Cpu, k: AluOp, op: bv32)
    requires cpu.Valid()
    modifies cpu.Registers()
    ensures cpu.Valid() && cpu.State() == DataProcessingSpec(old(cpu.State()), k, op)
  {
    var a := Operand1(cpu.r[..], op);
    var shifted := Operand2(cpu.r[..], op, cpu.psr.c);
    var out := Alu(k, a, shifted.value, cpu.psr.c, cpu.psr.v);
    Finish(cpu, k, Field4(op, 12), SetsFlags(op), shifted.carry, out);
  }

  /** The handler after its ALU step. */
  method Finish(cpu: Cpu, k: AluOp, rd: nat, setFlags: bool, shifterCarry: bool, out: AluOut)
    requires cpu.Valid() && rd < 16
    modifies cpu.Registers()
    ensures cpu.Valid() && cpu.State() == Complete(old(cpu.State()), k, rd, setFlags, shifterCarry, out)
  {
    StoreResult(cpu, k, rd, shifterCarry, out.result);
    SetFlags(cpu, k, rd, setFlags, out);
  }

  /** The shifter carry, then `cpuWriteRegister(rd, result)` unless the handler is a test. */
  method StoreResult(cpu: Cpu, k: AluOp, rd: nat, shifterCarry: bool, result: bv32)
    requires cpu.Valid() && rd < 16
    modifies cpu.Registers()
    ensures cpu.Valid() && cpu.State() == WriteBack(old(cpu.State()), k, rd, shifterCarry, result)
  {
    cpu.shifterCarry := shifterCarry;
    assert cpu.State() == old(cpu.State()).(shifterCarry := shifterCarry);
    if !IsTest(k) {
      cpu.WriteRegister(rd, result);
    }
  }

  /** The flag part of a handler. */
  method SetFlags(cpu: Cpu, k: AluOp, rd: nat, setFlags: bool, out: AluOut)
    requires cpu.Valid()
    modifies cpu.Registers()
    ensures cpu.Valid() && cpu.State() == FlagsStep(old(cpu.State()), k, rd, setFlags, out)
  {
    if setFlags {
      if !IsTest(k) && rd == 15 {
        cpu.RestoreCpsr();
      } else if IsLogical(k) {
        cpu.SetFlagsLogical(out.result);
      } else {
        SetArithmeticFlags(cpu, out);
      }
    }
  }

  /** `setFlagsArithmetical` and the handler's own C and V. */
  method SetArithmeticFlags(cpu: Cpu, out: AluOut)
    requires cpu.Valid()
    modifies cpu
    ensures cpu.Valid() && cpu.State() == FlagsAfterArithmetic(old(cpu.State()), out)
  {
    cpu.SetFlagsArithmetical(out.result);
    cpu.psr := cpu.psr.(c := out.carry, v := out.overflow);
  }
}
