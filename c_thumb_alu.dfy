// src/core/cpu/op_thumb_aluoperations.c: the sixteen Thumb ALU operations
// (format 4, `cpuOpcodeThumbAluOperations`) over the CPU state of CCpu.
// Each operation is a value computation (`Operation`) followed by the same
// state update (`Apply`): Z and N from the result, the shifter carry as C
// for the shifts, the operation's own C and V for the arithmetic ones, and
// the write of Rd unless the operation only compares.

module CThumbAlu {
  import opened Bits
  import ArmRef
  import CBitops
  import DP = CArmDataProcessing
  import opened CCpu

  datatype ThumbAluOp = AndOp | EorOp | LslOp | LsrOp | AsrOp | AdcOp | SbcOp | RorOp
                      | TstOp | NegOp | CmpOp | CmnOp | OrrOp | MulOp | BicOp | MvnOp

  /** Lines 28-47: the operation that bits 9-6 select. */
  function OpOf(code: bv32): ThumbAluOp
    requires code < 16
  {
    [AndOp, EorOp, LslOp, LsrOp, AsrOp, AdcOp, SbcOp, RorOp,
     TstOp, NegOp, CmpOp, CmnOp, OrrOp, MulOp, BicOp, MvnOp][code as int]
  }

  /** TST, CMP and CMN do not write Rd. */
  predicate IsComparison(k: ThumbAluOp) {
    k == TstOp || k == CmpOp || k == CmnOp
  }

  predicate IsShift(k: ThumbAluOp) {
    k == LslOp || k == LsrOp || k == AsrOp || k == RorOp
  }

  /**
   * What an operation computes: the result, whether Rd receives it, the
   * shifter carry a shift leaves (then C), and the C and V an arithmetic
   * operation sets; `None` leaves the flag as it was.
   */
  datatype Effect = Effect(result: bv32, writes: bool, shifter: Option<bool>, carry: Option<bool>, overflow: Option<bool>)

  /**
   * Lines 66-132 and 159-179: Rd shifted by Rs by the branches of the ARM
   * register-shift form. As written the branches test the whole of Rs;
   * corrected they test its bottom byte, as the architecture does.
   */
  function ShiftEffect(t: bv32, rd: bv32, rs: bv32, c: bool, corrected: bool): Effect {
    var shifted := DP.RegisterShiftForm(t, rd, if corrected then rs & 0xff else rs, c);
    Effect(shifted.value, true, Some(shifted.carry), None, None)
  }

  /** The result of an operation that sets only Z and N. */
  function Plain(result: bv32, writes: bool): Effect {
    Effect(result, writes, None, None, None)
  }

  /**
   * Lines 29-46: operation `k` on Rs and Rd with the flags C and V before
   * it, each in the function of its handler.
   */
  function Operation(k: ThumbAluOp, rs: bv32, rd: bv32, c: bool, v: bool, corrected: bool): Effect {
    match k
    case AndOp => And(rs, rd)
    case EorOp => Eor(rs, rd)
    case LslOp => ShiftEffect(0, rd, rs, c, corrected)
    case LsrOp => ShiftEffect(1, rd, rs, c, corrected)
    case AsrOp => ShiftEffect(2, rd, rs, c, corrected)
    case AdcOp => Adc(rs, rd, c, v)
    case SbcOp => Sbc(rs, rd, c)
    case RorOp => ShiftEffect(3, rd, rs, c, corrected)
    case TstOp => Tst(rs, rd)
    case NegOp => Neg(rs, corrected)
    case CmpOp => Cmp(rs, rd)
    case CmnOp => Cmn(rs, rd)
    case OrrOp => Orr(rs, rd)
    case MulOp => Mul(rs, rd)
    case BicOp => Bic(rs, rd)
    case MvnOp => Mvn(rs)
  }

  /** Lines 50-56. */
  function And(rs: bv32, rd: bv32): Effect { Plain(rs & rd, true) }

  /** Lines 58-64. */
  function Eor(rs: bv32, rd: bv32): Effect { Plain(rs ^ rd, true) }

  /** Lines 134-146: the 64-bit sum, truncated where it is stored; C from its 33rd bit. */
  function Adc(rs: bv32, rd: bv32, c: bool, v: bool): Effect {
    var out := DP.Alu(DP.AdcOp, rs, rd, c, v);
    Effect(out.result, true, None, Some(out.carry), Some(out.overflow))
  }

  /** Lines 148-157. */
  function Sbc(rs: bv32, rd: bv32, c: bool): Effect {
    var result := SbcValue(rs, rd, if c then 1 else 0);
    Effect(result, true, None, Some(CBitops.GetCarrySbc(rd, rs, c)), Some(CBitops.GetOverflowSub(rd, rs, result)))
  }

  /** The value SBC stores, Rd - Rs - NOT C, computed as Rd - Rs + carry - 1. */
  function SbcValue(rs: bv32, rd: bv32, carry: bv32): bv32 {
    rd - rs + carry - 1
  }

  /** Lines 181-186. */
  function Tst(rs: bv32, rd: bv32): Effect { Plain(rs & rd, false) }

  /** Lines 188-193: as written only Z and N; corrected also C and V of the subtraction 0 - Rs. */
  function Neg(rs: bv32, corrected: bool): Effect {
    var result := 0 - rs;
    if corrected then Effect(result, true, None, Some(CBitops.GetCarrySub(0, rs)), Some(CBitops.GetOverflowSub(0, rs, result)))
    else Plain(result, true)
  }

  /** Lines 195-202. */
  function Cmp(rs: bv32, rd: bv32): Effect {
    var result := rd - rs;
    Effect(result, false, None, Some(CBitops.GetCarrySub(rd, rs)), Some(CBitops.GetOverflowSub(rd, rs, result)))
  }

  /** Lines 204-211. */
  function Cmn(rs: bv32, rd: bv32): Effect {
    var result := rs + rd;
    Effect(result, false, None, Some(result < rs), Some(CBitops.GetOverflowAdd(rs, rd, result)))
  }

  /** Lines 213-219. */
  function Orr(rs: bv32, rd: bv32): Effect { Plain(rs | rd, true) }

  /** Lines 221-227. */
  function Mul(rs: bv32, rd: bv32): Effect { Plain(rs * rd, true) }

  /** Lines 229-235. */
  function Bic(rs: bv32, rd: bv32): Effect { Plain(rd & !rs, true) }

  /** Lines 237-242. */
  function Mvn(rs: bv32): Effect { Plain(!rs, true) }

  /** The flag a `Some` sets, or the old one. */
  function Update(f: Option<bool>, previous: bool): bool {
    if f.Some? then f.value else previous
  }

  /**
   * The state update every operation ends with: the flags, then
   * `g_cpuRegisterR[rd] = result` unless the operation only compares.
   */
  function Apply(s: CpuState, rd: nat, e: Effect): (s': CpuState)
    requires Good(s) && rd < 8
    ensures Good(s')
  {
    var f := SetCv(SetNz(s, e), e);
    if e.writes then SetR(f, rd, e.result) else f
  }

  /** The shifter carry stored, then `setFlagsLogical` for a shift and `setFlagsArithmetical` otherwise. */
  function SetNz(s: CpuState, e: Effect): (s': CpuState)
    ensures s' == s.(psr := s'.psr, shifterCarry := s'.shifterCarry) && s'.psr.mode == s.psr.mode
  {
    if e.shifter.Some? then LogicalFlagsSpec(s.(shifterCarry := e.shifter.value), e.result)
    else ArithmeticalFlagsSpec(s, e.result)
  }

  /** The operation's own C and V. */
  function SetCv(s: CpuState, e: Effect): (s': CpuState)
    ensures s' == s.(psr := s'.psr) && s'.psr.mode == s.psr.mode
  {
    s.(psr := s.psr.(c := Update(e.carry, s.psr.c), v := Update(e.overflow, s.psr.v)))
  }

  /** The operation, Rs and Rd of an opcode: bits 9-6, 5-3 and 2-0. */
  function Code(op: bv16): (k: ThumbAluOp) {
    OpOf(((op as bv32) >> 6) & 0xf)
  }

  /** `cpuOpcodeThumbAluOperations`, as written or corrected. */
  function Step(s: CpuState, op: bv16, corrected: bool): (s': CpuState)
    requires Good(s)
    ensures Good(s')
  {
    var rs, rd := Field3(op as bv32, 3), Field3(op as bv32, 0);
    Apply(s, rd, Operation(Code(op), s.banks.r[rs], s.banks.r[rd], s.psr.c, s.psr.v, corrected))
  }

  // ------------------------------------------------------------ the methods

  /** `cpuOpcodeThumbAluOperations`. */
  method AluOperations(cpu: Cpu, op: bv16)
    requires cpu.Valid()
    modifies cpu, cpu.r
    ensures cpu.Valid() && cpu.State() == Step(old(cpu.State()), op, false)
  {
    var k := Code(op);
    var rs, rd := Field3(op as bv32, 3), Field3(op as bv32, 0);
    var rsValue := cpu.r[rs];
    var e := Operation(k, rsValue, cpu.r[rd], cpu.psr.c, cpu.psr.v, false);
    Finish(cpu, rd, e);
  }

  /** The flags, then Rd. */
  method Finish(cpu: Cpu, rd: nat, e: Effect)
    requires cpu.Valid() && rd < 8
    modifies cpu, cpu.r
    ensures cpu.Valid() && cpu.State() == Apply(old(cpu.State()), rd, e)
  {
    FinishNz(cpu, e);
    FinishCv(cpu, e);
    if e.writes {
      cpu.r[rd] := e.result;
    }
  }

  method FinishNz(cpu: Cpu, e: Effect)
    requires cpu.Valid()
    modifies cpu
    ensures cpu.Valid() && cpu.State() == SetNz(old(cpu.State()), e)
  {
    if e.shifter.Some? {
      cpu.shifterCarry := e.shifter.value;
      assert cpu.State() == old(cpu.State()).(shifterCarry := e.shifter.value);
      cpu.SetFlagsLogical(e.result);
    } else {
      cpu.SetFlagsArithmetical(e.result);
    }
  }

  method FinishCv(cpu: Cpu, e: Effect)
    requires cpu.Valid()
    modifies cpu
    ensures cpu.Valid() && cpu.State() == SetCv(old(cpu.State()), e)
  {
    cpu.psr := cpu.psr.(c := Update(e.carry, cpu.psr.c), v := Update(e.overflow, cpu.psr.v));
  }

  // ------------------------------------------------------------ properties

  /** The architecture's shift type of a shift operation. */
  function ReferenceType(k: ThumbAluOp): ArmRef.ShiftType
    requires IsShift(k)
  {
    match k
    case LslOp => ArmRef.LSL
    case LsrOp => ArmRef.LSR
    case AsrOp => ArmRef.ASR
    case RorOp => ArmRef.ROR
  }

  /**
   * Corrected, LSL, LSR, ASR and ROR by register are the architecture's
   * shifts by the bottom byte of Rs (section A7.1 of the ARM Architecture
   * Reference Manual, with the shifter of section A5.1), result and carry.
   */
  lemma ShiftIsReference(k: ThumbAluOp, rs: bv32, rd: bv32, c: bool, v: bool)
    requires IsShift(k)
    ensures var e, ref := Operation(k, rs, rd, c, v, true), ArmRef.ShiftByRegister(ReferenceType(k), rs & 0xff, rd, c);
            e.result == ref.value && e.shifter == Some(ref.carry) && e.writes && e.carry.None? && e.overflow.None?
  {
    match k
    case LslOp => DP.RegisterLsl(rd, rs & 0xff, c);
    case LsrOp => DP.RegisterLsr(rd, rs & 0xff, c);
    case AsrOp => DP.RegisterAsr(rd, rs & 0xff, c);
    case RorOp => DP.RegisterRor(rd, rs & 0xff, c);
  }

  /** As written, a shift by register agrees with the corrected one whenever Rs is below 256. */
  lemma ShiftAsWrittenAgrees(k: ThumbAluOp, rs: bv32, rd: bv32, c: bool, v: bool)
    requires IsShift(k) && rs < 0x100
    ensures Operation(k, rs, rd, c, v, false) == Operation(k, rs, rd, c, v, true)
  {
    assert rs & 0xff == rs;
  }

  /**
   * LSL r0, r1 with r1 = 0x100, r0 = 1 and C set: as written the whole of
   * r1 counts and r0 and C are cleared; the architecture shifts by the
   * bottom byte, 0, and leaves both.
   */
  lemma ShiftCounterexample(s: CpuState)
    requires Good(s) && s.banks.r[1] == 0x100 && s.banks.r[0] == 1 && s.psr.c
    ensures Step(s, 0x4088, false).banks.r[0] == 0 && !Step(s, 0x4088, false).psr.c
    ensures Step(s, 0x4088, true).banks.r[0] == 1 && Step(s, 0x4088, true).psr.c
  {
    assert Code(0x4088) == LslOp && Field3(0x4088, 3) == 1 && Field3(0x4088, 0) == 0;
    assert Operation(LslOp, 0x100, 1, true, s.psr.v, false) == Effect(0, true, Some(false), None, None);
    assert Operation(LslOp, 0x100, 1, true, s.psr.v, true) == Effect(1, true, Some(true), None, None);
  }

  /** ADC: Rs + Rd + C, with C as CarryFrom and V as OverflowFrom of that sum. */
  lemma AdcIsReference(rs: bv32, rd: bv32, c: bool, v: bool, corrected: bool)
    ensures var e := Operation(AdcOp, rs, rd, c, v, corrected);
            e.result == rs + rd + B2W(c) && e.writes &&
            e.carry == Some(ArmRef.CarryFrom(rs, rd, c)) && e.overflow == Some(ArmRef.OverflowFromAdd(rs, rd, e.result))
  {
    DP.AdcResultWraps(rs, rd, c);
    DP.AdcCarryIsReference(rs, rd, c);
    CBitops.OverflowAddIsReference(rs, rd, DP.AluResult(DP.AdcOp, rs, rd, c));
  }

  /** SBC sets C as NOT BorrowFrom of Rd - Rs - NOT C. */
  lemma SbcCarry(rs: bv32, rd: bv32, c: bool, v: bool, corrected: bool)
    ensures Operation(SbcOp, rs, rd, c, v, corrected).carry == Some(ArmRef.NotBorrowFromWithCarry(rd, rs, c))
  {
    CBitops.CarrySbcIsReference(rd, rs, c);
  }

  /** With C set, SBC stores Rd - Rs (NOT C is 0). */
  lemma SbcWithCarry(rs: bv32, rd: bv32, v: bool, corrected: bool)
    ensures Operation(SbcOp, rs, rd, true, v, corrected).result == rd - rs
  {
    assert Operation(SbcOp, rs, rd, true, v, corrected).result == SbcValue(rs, rd, 1);
  }

  /** With C clear, SBC stores Rd - Rs - 1 (NOT C is 1). */
  lemma SbcWithoutCarry(rs: bv32, rd: bv32, v: bool, corrected: bool)
    ensures Operation(SbcOp, rs, rd, false, v, corrected).result == rd - rs - 1
  {
    assert Operation(SbcOp, rs, rd, false, v, corrected).result == SbcValue(rs, rd, 0);
  }

  /** SBC sets V as OverflowFrom of its subtraction. */
  lemma SbcOverflow(rs: bv32, rd: bv32, c: bool, v: bool, corrected: bool)
    ensures var e := Operation(SbcOp, rs, rd, c, v, corrected);
            e.overflow == Some(ArmRef.OverflowFromSub(rd, rs, e.result))
  {
    CBitops.OverflowSubIsReference(rd, rs, SbcValue(rs, rd, if c then 1 else 0));
  }

  /** CMP: flags from Rd - Rs, with C as NOT BorrowFrom; Rd is not written. */
  lemma CmpIsReference(rs: bv32, rd: bv32, c: bool, v: bool, corrected: bool)
    ensures var e := Operation(CmpOp, rs, rd, c, v, corrected);
            e.result == rd - rs && !e.writes && e.carry == Some(ArmRef.NotBorrowFrom(rd, rs))
  {
  }

  /** CMP sets V as OverflowFrom of Rd - Rs. */
  lemma CmpOverflow(rs: bv32, rd: bv32, c: bool, v: bool, corrected: bool)
    ensures Operation(CmpOp, rs, rd, c, v, corrected).overflow == Some(ArmRef.OverflowFromSub(rd, rs, rd - rs))
  {
    CBitops.OverflowSubIsReference(rd, rs, rd - rs);
  }

  /** CMN: flags from Rs + Rd, V as OverflowFrom and C as CarryFrom of the sum; Rd is not written. */
  lemma CmnIsReference(rs: bv32, rd: bv32, c: bool, v: bool, corrected: bool)
    ensures var e := Operation(CmnOp, rs, rd, c, v, corrected);
            e.result == rs + rd && !e.writes && e.overflow == Some(ArmRef.OverflowFromAdd(rs, rd, e.result)) &&
            e.carry == Some(ArmRef.CarryFrom(rs, rd, false))
  {
    var e := Operation(CmnOp, rs, rd, c, v, corrected);
    assert e == Cmn(rs, rd);
    CBitops.OverflowAddIsReference(rs, rd, rs + rd);
    CmnCarry(rs, rd);
  }

  /** The unsigned wrap of the sum is the carry out of bit 31. */
  lemma CmnCarry(rs: bv32, rd: bv32)
    ensures (rs + rd < rs) == ArmRef.CarryFrom(rs, rd, false)
  {
    DP.AddCarry(rs, rd);
    DP.AddWraps(rs, rd);
  }

  /** As written, NEG leaves C and V as they were. */
  lemma NegAsWritten(rs: bv32, rd: bv32, c: bool, v: bool)
    ensures Operation(NegOp, rs, rd, c, v, false) == Effect(0 - rs, true, None, None, None)
  {
  }

  /** Corrected, NEG is the subtraction 0 - Rs with its C and V (RSBS Rd, Rs, #0). */
  lemma NegIntended(rs: bv32, rd: bv32, c: bool, v: bool)
    ensures var e := Operation(NegOp, rs, rd, c, v, true);
            e.result == 0 - rs && e.writes &&
            e.carry == Some(ArmRef.NotBorrowFrom(0, rs)) && e.overflow == Some(ArmRef.OverflowFromSub(0, rs, e.result))
            && (e.carry == Some(true) <==> rs == 0)
  {
    CBitops.OverflowSubIsReference(0, rs, 0 - rs);
  }

  /** NEG r0, r1 with r1 = 0 and C clear: as written C stays clear; 0 - 0 does not borrow, so corrected C is set. */
  lemma NegCounterexample(s: CpuState)
    requires Good(s) && s.banks.r[1] == 0 && !s.psr.c
    ensures !Step(s, 0x4248, false).psr.c
    ensures Step(s, 0x4248, true).psr.c
  {
    assert Code(0x4248) == NegOp && Field3(0x4248, 3) == 1;
  }

  /** The logical operations, MUL and (as written) NEG set Z and N only. */
  lemma PlainKeepsCv(k: ThumbAluOp, rs: bv32, rd: bv32, c: bool, v: bool, corrected: bool)
    requires k == AndOp || k == EorOp || k == TstOp || k == OrrOp || k == MulOp || k == BicOp || k == MvnOp ||
             (k == NegOp && !corrected)
    ensures var e := Operation(k, rs, rd, c, v, corrected);
            e.shifter.None? && e.carry.None? && e.overflow.None?
  {
    match k
    case AndOp =>
    case EorOp =>
    case TstOp =>
    case OrrOp =>
    case MulOp =>
    case BicOp =>
    case MvnOp =>
    case NegOp =>
  }

  /**
   * After the state update Z and N describe the result, C is the shifter
   * carry, the operation's own carry or the old C, V the operation's
   * overflow or the old V, and the other bits of the CPSR are kept.
   */
  lemma FlagsAfter(s: CpuState, rd: nat, e: Effect)
    requires Good(s) && rd < 8
    ensures Apply(s, rd, e).psr
            == s.psr.(z := e.result == 0, n := Sign(e.result),
                      c := Update(e.carry, Update(e.shifter, s.psr.c)), v := Update(e.overflow, s.psr.v))
  {
    var nz := SetNz(s, e);
    NzFlags(s, e);
    var f := SetCv(nz, e);
    assert f.psr == nz.psr.(c := Update(e.carry, nz.psr.c), v := Update(e.overflow, nz.psr.v));
    if e.writes {
      assert Apply(s, rd, e).psr == f.psr;
    }
  }

  lemma NzFlags(s: CpuState, e: Effect)
    ensures SetNz(s, e).psr == s.psr.(z := e.result == 0, n := Sign(e.result), c := Update(e.shifter, s.psr.c))
  {
    if e.shifter.Some? {
      assert SetNz(s, e) == LogicalFlagsSpec(s.(shifterCarry := e.shifter.value), e.result);
    } else {
      assert SetNz(s, e) == ArithmeticalFlagsSpec(s, e.result);
    }
  }

  /** The update writes Rd when the operation writes, and changes no other register. */
  lemma RegistersAfter(s: CpuState, rd: nat, e: Effect)
    requires Good(s) && rd < 8
    ensures var s' := Apply(s, rd, e);
            s'.banks == (if e.writes then s.banks.(r := s.banks.r[rd := e.result]) else s.banks) &&
            s'.stage == s.stage && s'.spsr == s.spsr
  {
  }

  /** Exactly TST, CMP and CMN leave Rd unwritten. */
  lemma WritesUnlessComparison(k: ThumbAluOp, rs: bv32, rd: bv32, c: bool, v: bool, corrected: bool)
    ensures Operation(k, rs, rd, c, v, corrected).writes <==> !IsComparison(k)
  {
    match k
    case AndOp =>
    case EorOp =>
    case LslOp =>
    case LsrOp =>
    case AsrOp =>
    case AdcOp =>
    case SbcOp =>
    case RorOp =>
    case TstOp =>
    case NegOp =>
    case CmpOp =>
    case CmnOp =>
    case OrrOp =>
    case MulOp =>
    case BicOp =>
    case MvnOp =>
  }
}
