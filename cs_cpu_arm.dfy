// src/GBA/CPU_ARM.cs: the ARM half of the C# CPU. The 4096-entry handler
// table, the data-processing barrel shifter, the eight logical
// data-processing handlers and B/BL.
//
// The handlers are static in the source and take the CPU as an argument,
// as they do here. Two members they call are not in the C# sources modelled
// here: the `Spsr` property, whose value becomes the `spsr` parameter, and
// `PerformJump`, whose target becomes the `Jumped` outcome. The
// exceptions they throw become outcomes as well.

module CsCpuArm {
  import opened Bits
  import ArmRef
  import opened CsBitUtils
  import opened CsCpu

  // ---------------------------------------------------------- decode table

  datatype ArmHandler = Unassigned | And | Eor | Tst | Teq | Orr | Mov | Bic | Mvn | B

  /** The inner switch of `InitARMDecodeTable` on the 4-bit data-processing opcode. */
  function DataProcessingHandler(alu: bv32): ArmHandler {
    if alu == 0x0 then And
    else if alu == 0x1 then Eor
    else if alu == 0x8 then Tst
    else if alu == 0x9 then Teq
    else if alu == 0xc then Orr
    else if alu == 0xd then Mov
    else if alu == 0xe then Bic
    else if alu == 0xf then Mvn
    else Unassigned
  }

  /** What `InitARMDecodeTable` stores at index `i`. */
  function ArmTableEntry(i: bv32): ArmHandler {
    if i & 0xc00 == 0 then DataProcessingHandler((i & 0x1e0) >> 5)
    else if i & 0xe00 == 0xa00 then B
    else Unassigned
  }

  /** `InitARMDecodeTable`. */
  method InitArmDecodeTable() returns (table: array<ArmHandler>)
    ensures fresh(table) && table.Length == 4096
    ensures forall i :: 0 <= i < 4096 ==> table[i] == ArmTableEntry(i as bv32)
  {
    table := new ArmHandler[4096](_ => Unassigned);
    for i := 0 to 4096
      invariant forall k :: 0 <= k < i ==> table[k] == ArmTableEntry(k as bv32)
    {
      table[i] := ArmTableEntry(i as bv32);
    }
  }

  /** Table index of an opcode: bits 27:20 above bits 7:4. */
  function ArmDecodeIndex(opcode: bv32): (k: nat)
    ensures k < 4096
  {
    IndexBound(opcode);
    (((opcode >> 16) & 0xff0) | ((opcode >> 4) & 0xf)) as nat
  }

  lemma IndexBound(opcode: bv32)
    ensures ((opcode >> 16) & 0xff0) | ((opcode >> 4) & 0xf) < 4096
  {
  }

  /** `DecodeARMOpcode`. */
  function DecodeArmOpcode(table: array<ArmHandler>, opcode: bv32): ArmHandler
    reads table
    requires table.Length == 4096
  {
    table[ArmDecodeIndex(opcode)]
  }

  /** The classification the table encodes, read directly from the opcode's bits. */
  function ArmClass(opcode: bv32): ArmHandler {
    if (opcode >> 26) & 3 == 0 then DataProcessingHandler((opcode >> 21) & 0xf)
    else if (opcode >> 25) & 7 == 5 then B
    else Unassigned
  }

  /** The fields of the index that the table tests are the opcode's bits 27:26, 24:21 and 27:25. */
  lemma IndexFields(opcode: bv32)
    ensures var e := ((opcode >> 16) & 0xff0) | ((opcode >> 4) & 0xf);
            (e & 0xc00 == 0 <==> (opcode >> 26) & 3 == 0) &&
            (e & 0x1e0) >> 5 == (opcode >> 21) & 0xf &&
            (e & 0xe00 == 0xa00 <==> (opcode >> 25) & 7 == 5)
  {
  }

  lemma IndexRoundTrip(e: bv32)
    ensures (e as nat) as bv32 == e
  {
  }

  /** The entry at an opcode's index is the class of the opcode. */
  lemma TableEntryIsClass(opcode: bv32)
    ensures ArmTableEntry(((opcode >> 16) & 0xff0) | ((opcode >> 4) & 0xf)) == ArmClass(opcode)
  {
    var e := ((opcode >> 16) & 0xff0) | ((opcode >> 4) & 0xf);
    IndexFields(opcode);
    if (opcode >> 26) & 3 == 0 {
      assert ArmTableEntry(e) == DataProcessingHandler((opcode >> 21) & 0xf);
    } else if (opcode >> 25) & 7 == 5 {
      assert ArmTableEntry(e) == B;
    } else {
      assert ArmTableEntry(e) == Unassigned;
    }
  }

  /** Looking an opcode up in the initialised table gives the class of its bits 27:20. */
  lemma DecodeMatchesClass(table: array<ArmHandler>, opcode: bv32)
    requires table.Length == 4096
    requires forall i :: 0 <= i < 4096 ==> table[i] == ArmTableEntry(i as bv32)
    ensures DecodeArmOpcode(table, opcode) == ArmClass(opcode)
  {
    var e := ((opcode >> 16) & 0xff0) | ((opcode >> 4) & 0xf);
    IndexRoundTrip(e);
    TableEntryIsClass(opcode);
    assert DecodeArmOpcode(table, opcode) == table[e as nat];
  }

  /** B is chosen exactly for bits 27:25 = 101 and the handlers exactly for bits 27:26 = 00. */
  lemma ArmClassRegions(opcode: bv32)
    ensures ArmClass(opcode) == B <==> (opcode >> 25) & 7 == 5
    ensures ArmClass(opcode) in {And, Eor, Tst, Teq, Orr, Mov, Bic, Mvn} ==> (opcode >> 26) & 3 == 0
    ensures (opcode >> 26) & 3 == 0 ==>
              (ArmClass(opcode) == Unassigned <==> (opcode >> 21) & 0xf in {2, 3, 4, 5, 6, 7, 0xa, 0xb})
  {
  }

  // -------------------------------------------------------------- shifter

  /** Result of `OpcodeArmDataProcessingShifter`; bit 7 set with a register shift throws. */
  datatype ShiftOutcome = ShiftOk(value: bv32, carry: bool) | ShiftInvalid

  /** A register operand as the handlers read it: r15 reads 4 further on. */
  function RmValue(regs: seq<bv32>, opcode: bv32): bv32
    requires |regs| == 16
  {
    if opcode & 0xf == 15 then regs[15] + 4 else regs[Field4(opcode, 0)]
  }

  /** The whole of register Rs (bits 11:8), r15 again 4 further on. */
  function RsValue(regs: seq<bv32>, opcode: bv32): bv32
    requires |regs| == 16
  {
    if (opcode >> 8) & 0xf == 15 then regs[15] + 4 else regs[Field4(opcode, 8)]
  }

  /** Immediate-shift branch (I = 0, bit 4 = 0) of the shifter. */
  function ImmediateShift(opcode: bv32, rmv: bv32, c: bool): ShiftOutcome {
    var immediate := (opcode & 0xf80) >> 7;
    var t := (opcode & 0x60) >> 5;
    if t == 0 then
      if immediate == 0 then ShiftOk(rmv, c)
      else ShiftOk(rmv << immediate, BitTest32(rmv >> (32 - immediate), 0))
    else if t == 1 then
      if immediate == 0 then ShiftOk(0, BitTest32(rmv, 31))
      else ShiftOk(rmv >> immediate, BitTest32(rmv >> (immediate - 1), 0))
    else if t == 2 then
      if immediate == 0 then ShiftOk(Asr(rmv, 31), BitTest32(rmv, 31))
      else ShiftOk(Asr(rmv, immediate), BitTest32(rmv >> (immediate - 1), 0))
    else
      if immediate == 0 then ShiftOk((if c then 1 << 31 else 0) | (rmv >> 1), BitTest32(rmv, 0))
      else ShiftOk(RotateRight32(rmv, immediate), BitTest32(rmv >> (immediate - 1), 0))
  }

  /**
   * Register-shift branch (I = 0, bit 4 = 1), as written: `shift` is the
   * whole 32-bit register, and LSL by 1..31 shifts right.
   */
  function RegisterShift(opcode: bv32, rmv: bv32, shift: bv32, c: bool): ShiftOutcome {
    var t := (opcode & 0x60) >> 5;
    if t == 0 then
      if shift == 0 then ShiftOk(rmv, c)
      else if shift < 32 then ShiftOk(rmv >> shift, BitTest32(rmv >> (shift - 1), 1))
      else if shift == 32 then ShiftOk(0, BitTest32(rmv, 0))
      else ShiftOk(0, false)
    else if t == 1 then
      if shift == 0 then ShiftOk(rmv, c)
      else if shift < 32 then ShiftOk(rmv >> shift, BitTest32(rmv >> (shift - 1), 0))
      else if shift == 32 then ShiftOk(0, BitTest32(rmv, 31))
      else ShiftOk(0, false)
    else if t == 2 then
      if shift == 0 then ShiftOk(rmv, c)
      else if shift < 32 then ShiftOk(Asr(rmv, shift), BitTest32(rmv >> (shift - 1), 0))
      else ShiftOk(Asr(rmv, 31), BitTest32(rmv, 31))
    else
      var rotation := shift & 0x1f;
      if shift == 0 then ShiftOk(rmv, c)
      else if rotation == 0 then ShiftOk(rmv, BitTest32(rmv, 31))
      else ShiftOk(RotateRight32(rmv, rotation), BitTest32(rmv >> (rotation - 1), 0))
  }

  /** `OpcodeArmDataProcessingShifter` on the registers `regs` and carry flag `c`. */
  function ShifterSpec(opcode: bv32, regs: seq<bv32>, c: bool): ShiftOutcome
    requires |regs| == 16
  {
    if opcode & 0x0200_0000 == 0 then
      var rmv := RmValue(regs, opcode);
      if opcode & 0x10 == 0 then ImmediateShift(opcode, rmv, c)
      else if opcode & 0x80 != 0 then ShiftInvalid
      else RegisterShift(opcode, rmv, RsValue(regs, opcode), c)
    else
      var rotation := (opcode >> 7) & 0x1e;
      var immediate := opcode & 0xff;
      if rotation == 0 then ShiftOk(immediate, c)
      else
        var v := RotateRight32(immediate, rotation);
        ShiftOk(v, BitTest32(v, 31))
  }

  function AsOutcome(s: ArmRef.Shifted): ShiftOutcome {
    ShiftOk(s.value, s.carry)
  }

  /** With I set the operand is the rotated immediate of the ARM reference. */
  lemma ShifterImmediateOperand(opcode: bv32, regs: seq<bv32>, c: bool)
    requires |regs| == 16 && opcode & 0x0200_0000 != 0
    ensures ShifterSpec(opcode, regs, c) == AsOutcome(ArmRef.ImmediateOperand(opcode, c))
  {
    var rot := ((opcode >> 8) & 0xf) * 2;
    assert (opcode >> 7) & 0x1e == rot;
    if rot != 0 {
      RotateRight32Spec(opcode & 0xff, rot);
    }
  }

  /** All four shifts by a 5-bit immediate agree with the reference, LSR #0, ASR #0 and RRX included. */
  lemma ShifterImmediateShift(opcode: bv32, regs: seq<bv32>, c: bool)
    requires |regs| == 16 && opcode & 0x0200_0000 == 0 && opcode & 0x10 == 0
    ensures ShifterSpec(opcode, regs, c) ==
            AsOutcome(ArmRef.ShiftByImmediate(ArmRef.ShiftTypeOf(opcode), (opcode >> 7) & 0x1f, RmValue(regs, opcode), c))
  {
    var amount := (opcode >> 7) & 0x1f;
    assert (opcode & 0xf80) >> 7 == amount;
    assert (opcode & 0x60) >> 5 == (opcode >> 5) & 3;
    var rmv := RmValue(regs, opcode);
    if amount != 0 {
      RotateRight32Spec(rmv, amount);
    }
  }

  /** With bit 7 set in a register-shift form the shifter throws InvalidOpcodeException. */
  lemma ShifterRejectsBit7(opcode: bv32, regs: seq<bv32>, c: bool)
    requires |regs| == 16
    ensures ShifterSpec(opcode, regs, c) == ShiftInvalid <==>
            opcode & 0x0200_0000 == 0 && opcode & 0x10 != 0 && opcode & 0x80 != 0
  {
  }

  /** The shift-type field the shifter switches on is the one the reference decodes. */
  lemma ShiftTypeField(opcode: bv32)
    ensures var t := (opcode & 0x60) >> 5;
            (t == 0 <==> ArmRef.ShiftTypeOf(opcode) == ArmRef.LSL) &&
            (t == 1 <==> ArmRef.ShiftTypeOf(opcode) == ArmRef.LSR) &&
            (t == 2 <==> ArmRef.ShiftTypeOf(opcode) == ArmRef.ASR) &&
            (t == 3 <==> ArmRef.ShiftTypeOf(opcode) == ArmRef.ROR)
  {
    assert (opcode & 0x60) >> 5 == (opcode >> 5) & 3;
  }

  lemma RegisterShiftLsr(opcode: bv32, rmv: bv32, shift: bv32, c: bool)
    requires (opcode & 0x60) >> 5 == 1 && shift < 256
    ensures RegisterShift(opcode, rmv, shift, c) == AsOutcome(ArmRef.ShiftByRegister(ArmRef.LSR, shift, rmv, c))
  {
  }

  lemma RegisterShiftAsr(opcode: bv32, rmv: bv32, shift: bv32, c: bool)
    requires (opcode & 0x60) >> 5 == 2 && shift < 256
    ensures RegisterShift(opcode, rmv, shift, c) == AsOutcome(ArmRef.ShiftByRegister(ArmRef.ASR, shift, rmv, c))
  {
  }

  lemma RegisterShiftRor(opcode: bv32, rmv: bv32, shift: bv32, c: bool)
    requires (opcode & 0x60) >> 5 == 3 && shift < 256
    ensures RegisterShift(opcode, rmv, shift, c) == AsOutcome(ArmRef.ShiftByRegister(ArmRef.ROR, shift, rmv, c))
  {
    var rot := shift & 0x1f;
    if shift != 0 && rot != 0 {
      RotateRight32Spec(rmv, rot);
    }
  }

  /** Register LSL by 0 and by 32 or more agrees with the reference. */
  lemma RegisterShiftLslEdges(opcode: bv32, rmv: bv32, shift: bv32, c: bool)
    requires (opcode & 0x60) >> 5 == 0 && (shift == 0 || 32 <= shift < 256)
    ensures RegisterShift(opcode, rmv, shift, c) == AsOutcome(ArmRef.ShiftByRegister(ArmRef.LSL, shift, rmv, c))
  {
  }

  /** The shifter's register-shift form is `RegisterShift` on Rm and the whole of Rs. */
  lemma ShifterIsRegisterShift(opcode: bv32, regs: seq<bv32>, c: bool)
    requires |regs| == 16 && opcode & 0x0200_0000 == 0 && opcode & 0x10 != 0 && opcode & 0x80 == 0
    ensures ShifterSpec(opcode, regs, c) == RegisterShift(opcode, RmValue(regs, opcode), RsValue(regs, opcode), c)
  {
  }

  /**
   * The register forms LSR, ASR and ROR agree with the reference when Rs
   * holds a value below 256 (the reference reads only Rs[7:0]); LSL agrees
   * for the amounts 0 and 32..255.
   */
  lemma ShifterRegisterShift(opcode: bv32, regs: seq<bv32>, c: bool)
    requires |regs| == 16 && opcode & 0x0200_0000 == 0 && opcode & 0x10 != 0 && opcode & 0x80 == 0
    requires var s := RsValue(regs, opcode);
             s < 256 && (ArmRef.ShiftTypeOf(opcode) == ArmRef.LSL ==> s == 0 || 32 <= s)
    ensures ShifterSpec(opcode, regs, c) ==
            AsOutcome(ArmRef.ShiftByRegister(ArmRef.ShiftTypeOf(opcode), RsValue(regs, opcode), RmValue(regs, opcode), c))
  {
    ShifterIsRegisterShift(opcode, regs, c);
    ShiftTypeField(opcode);
    var rmv, shift := RmValue(regs, opcode), RsValue(regs, opcode);
    var t := (opcode & 0x60) >> 5;
    if t == 0 {
      RegisterShiftLslEdges(opcode, rmv, shift, c);
    } else if t == 1 {
      RegisterShiftLsr(opcode, rmv, shift, c);
    } else if t == 2 {
      RegisterShiftAsr(opcode, rmv, shift, c);
    } else {
      RegisterShiftRor(opcode, rmv, shift, c);
    }
  }

  /**
   * As written, register LSL by 1..31 is a right shift whose carry is bit
   * `shift` of Rm: `LSL r1, r2` with r1 = 2, r2 = 1 gives 1 and carry set,
   * where the architecture gives 4 with carry clear.
   */
  lemma ShifterRegisterLslCounterexample(regs: seq<bv32>, c: bool)
    requires |regs| == 16 && regs[1] == 2 && regs[2] == 1
    ensures ShifterSpec(0x0000_0211, regs, c) == ShiftOk(1, true)
    ensures ArmRef.ShiftByRegister(ArmRef.LSL, 1, 2, c) == ArmRef.Shifted(4, false)
  {
    assert Field4(0x0000_0211, 0) == 1 && Field4(0x0000_0211, 8) == 2;
  }

  /**
   * As written, the shift amount is the whole of Rs: Rs = 0x100 clears the
   * result of `LSR r1, r2`, where the architecture reads Rs[7:0] = 0 and
   * passes r1 and the carry flag through.
   */
  lemma ShifterWholeRsCounterexample(regs: seq<bv32>, c: bool)
    requires |regs| == 16 && regs[1] == 0x8000_0000 && regs[2] == 0x100
    ensures ShifterSpec(0x0000_0231, regs, c) == ShiftOk(0, false)
    ensures ArmRef.ShiftByRegister(ArmRef.LSR, 0x100 & 0xff, 0x8000_0000, c) == ArmRef.Shifted(0x8000_0000, c)
  {
    assert Field4(0x0000_0231, 0) == 1 && Field4(0x0000_0231, 8) == 2;
  }

  /** The register-shift branch with both defects repaired: Rs[7:0] as the amount, LSL shifting left. */
  function CorrectedRegisterShift(opcode: bv32, rmv: bv32, rsv: bv32, c: bool): ShiftOutcome {
    var t := (opcode & 0x60) >> 5;
    var shift := rsv & 0xff;
    if t == 0 then
      if shift == 0 then ShiftOk(rmv, c)
      else if shift < 32 then ShiftOk(rmv << shift, BitTest32(rmv >> (32 - shift), 0))
      else if shift == 32 then ShiftOk(0, BitTest32(rmv, 0))
      else ShiftOk(0, false)
    else RegisterShift(opcode, rmv, shift, c)
  }

  /** The repaired LSL is the reference's. */
  lemma CorrectedLsl(opcode: bv32, rmv: bv32, rsv: bv32, c: bool)
    requires (opcode & 0x60) >> 5 == 0
    ensures CorrectedRegisterShift(opcode, rmv, rsv, c) ==
            AsOutcome(ArmRef.ShiftByRegister(ArmRef.LSL, rsv & 0xff, rmv, c))
  {
  }

  /** The repaired branch is the reference's shift by register, for every Rs and every shift type. */
  lemma CorrectedRegisterShiftIsReference(opcode: bv32, rmv: bv32, rsv: bv32, c: bool)
    ensures CorrectedRegisterShift(opcode, rmv, rsv, c) ==
            AsOutcome(ArmRef.ShiftByRegister(ArmRef.ShiftTypeOf(opcode), rsv & 0xff, rmv, c))
  {
    ShiftTypeField(opcode);
    var t := (opcode & 0x60) >> 5;
    var shift := rsv & 0xff;
    if t == 0 {
      CorrectedLsl(opcode, rmv, rsv, c);
    } else if t == 1 {
      RegisterShiftLsr(opcode, rmv, shift, c);
    } else if t == 2 {
      RegisterShiftAsr(opcode, rmv, shift, c);
    } else {
      RegisterShiftRor(opcode, rmv, shift, c);
    }
  }

  /** `OpcodeArmDataProcessingShifter`: stores the operand and carry, or reports the throw. */
  method Shifter(cpu: Cpu, opcode: bv32) returns (invalid: bool)
    requires cpu.Valid()
    modifies cpu`shifterResult, cpu`shifterCarry
    ensures invalid <==> ShifterSpec(opcode, cpu.r[..], cpu.flagC) == ShiftInvalid
    ensures !invalid ==> ShifterSpec(opcode, cpu.r[..], cpu.flagC) == ShiftOk(cpu.shifterResult, cpu.shifterCarry)
    ensures invalid ==> cpu.shifterResult == old(cpu.shifterResult) && cpu.shifterCarry == old(cpu.shifterCarry)
  {
    var s := ShifterSpec(opcode, cpu.r[..], cpu.flagC);
    if s.ShiftInvalid? {
      return true;
    }
    cpu.shifterResult, cpu.shifterCarry := s.value, s.carry;
    invalid := false;
  }

  // ------------------------------------------------- logical operations

  datatype LogicalOp = AndOp | EorOp | TstOp | TeqOp | OrrOp | MovOp | BicOp | MvnOp

  predicate IsTest(k: LogicalOp) { k == TstOp || k == TeqOp }

  /** The ALU function of each handler on Rn and the shifter operand. */
  function Combine(k: LogicalOp, rn: bv32, op2: bv32): bv32 {
    match k
    case AndOp => rn & op2
    case EorOp => rn ^ op2
    case TstOp => rn & op2
    case TeqOp => rn ^ op2
    case OrrOp => rn | op2
    case MovOp => op2
    case BicOp => rn & !op2
    case MvnOp => !op2
  }

  /** The Rn operand: r15 reads 4 further on only with an immediate operand (bit 25). */
  function RnValue(regs: seq<bv32>, opcode: bv32): bv32
    requires |regs| == 16
  {
    if (opcode >> 16) & 0xf == 15 && BitTest32(opcode, 25) then regs[15] + 4 else regs[Field4(opcode, 16)]
  }

  /**
   * How an ARM handler ends: normally, with a jump handed to `PerformJump`,
   * with InvalidOpcodeException, or with the "Undefined mode" exception.
   */
  datatype ArmOutcome = Completed | Jumped(target: bv32) | InvalidOpcode | ModeFault

  /** The CPU state an ARM handler reads or writes. */
  datatype ArmView = ArmView(r: seq<bv32>, psr: Psr, shifterResult: bv32, shifterCarry: bool)

  datatype ArmStep = ArmStep(view: ArmView, outcome: ArmOutcome)

  ghost function View(cpu: Cpu): ArmView
    reads cpu, cpu.r
  {
    ArmView(cpu.r[..], cpu.Status(), cpu.shifterResult, cpu.shifterCarry)
  }

  /** The handlers `OpcodeArmAnd` ... `OpcodeArmMvn` on a state `v`, with the current SPSR `spsr`. */
  function LogicalSpec(k: LogicalOp, v: ArmView, opcode: bv32, spsr: bv32): ArmStep
    requires |v.r| == 16
  {
    if IsTest(k) && !BitTest32(opcode, 20) then ArmStep(v, InvalidOpcode)
    else match ShifterSpec(opcode, v.r, v.psr.c)
      case ShiftInvalid => ArmStep(v, InvalidOpcode)
      case ShiftOk(op2, carry) =>
        LogicalAfterShift(k, v.(shifterResult := op2, shifterCarry := carry), opcode, spsr, RnValue(v.r, opcode))
  }

  /** The rest of a handler once the shifter has stored its operand and carry in `v`. */
  function LogicalAfterShift(k: LogicalOp, v: ArmView, opcode: bv32, spsr: bv32, rnv: bv32): ArmStep
    requires |v.r| == 16
  {
    var result := Combine(k, rnv, v.shifterResult);
    if RestoreFaults(k, opcode, spsr) then ArmStep(v.(psr := UnpackCpsr(spsr)), ModeFault)
    else ArmStep(v.(psr := StatusAfter(k, v.psr, opcode, spsr, result, v.shifterCarry),
                    r := RegistersAfter(k, v.r, opcode, result)),
                 OutcomeAfter(k, opcode, result))
  }

  /** TST and TEQ write no register; Rd = 15 goes to `PerformJump` instead. */
  function RegistersAfter(k: LogicalOp, r: seq<bv32>, opcode: bv32, result: bv32): seq<bv32>
    requires |r| == 16
  {
    if IsTest(k) || RdIsPc(opcode) then r else r[Field4(opcode, 12) := result]
  }

  function OutcomeAfter(k: LogicalOp, opcode: bv32, result: bv32): ArmOutcome {
    if !IsTest(k) && RdIsPc(opcode) then Jumped(result) else Completed
  }

  /** Rd (bits 15:12) is r15. */
  predicate RdIsPc(opcode: bv32) {
    (opcode >> 12) & 0xf == 15
  }

  /** S is set (always for TST and TEQ). */
  predicate SetsFlags(k: LogicalOp, opcode: bv32) {
    IsTest(k) || BitTest32(opcode, 20)
  }

  /** With S and Rd = 15 the CPSR is loaded from the SPSR, and the setter throws for an undefined mode. */
  predicate RestoreFaults(k: LogicalOp, opcode: bv32, spsr: bv32) {
    SetsFlags(k, opcode) && RdIsPc(opcode) && CheckMode(spsr & 0x1f) == UndefinedMode
  }

  /** The status after the flag update of a handler that does not throw. */
  function StatusAfter(k: LogicalOp, p: Psr, opcode: bv32, spsr: bv32, result: bv32, carry: bool): Psr {
    if SetsFlags(k, opcode) then
      var q := if RdIsPc(opcode) then UnpackCpsr(spsr) else p;
      q.(n := BitTest32(result, 31), z := result == 0, c := carry)
    else p
  }

  /** `LogicalSpec` once the shifter has produced an operand. */
  lemma LogicalSpecUnfold(k: LogicalOp, v: ArmView, opcode: bv32, spsr: bv32)
    requires |v.r| == 16 && ShifterSpec(opcode, v.r, v.psr.c).ShiftOk? && (IsTest(k) ==> BitTest32(opcode, 20))
    ensures var sh := ShifterSpec(opcode, v.r, v.psr.c);
            LogicalSpec(k, v, opcode, spsr) ==
            LogicalAfterShift(k, v.(shifterResult := sh.value, shifterCarry := sh.carry), opcode, spsr, RnValue(v.r, opcode))
  {
  }

  /** TST and TEQ without S are rejected before anything changes, and only they are. */
  lemma TestWithoutSRejected(k: LogicalOp, v: ArmView, opcode: bv32, spsr: bv32)
    requires |v.r| == 16 && !BitTest32(opcode, 20)
    ensures IsTest(k) ==> LogicalSpec(k, v, opcode, spsr) == ArmStep(v, InvalidOpcode)
    ensures !IsTest(k) && ShifterSpec(opcode, v.r, v.psr.c).ShiftOk? ==>
              LogicalSpec(k, v, opcode, spsr).outcome != InvalidOpcode
  {
  }

  /**
   * After the shifter: a handler that returns normally writes Rd (never r15)
   * with the ALU result and no other register; TST and TEQ write no register;
   * Rd = 15 hands the result to `PerformJump` and leaves the registers alone.
   */
  lemma LogicalWritesOnlyRd(k: LogicalOp, v: ArmView, opcode: bv32, spsr: bv32, rnv: bv32)
    requires |v.r| == 16
    ensures var st := LogicalAfterShift(k, v, opcode, spsr, rnv);
            var result := Combine(k, rnv, v.shifterResult);
            (st.outcome == Completed && !IsTest(k) ==>
               !RdIsPc(opcode) && st.view.r == v.r[Field4(opcode, 12) := result]) &&
            (IsTest(k) ==> st.view.r == v.r && !st.outcome.Jumped?) &&
            (st.outcome.Jumped? ==> RdIsPc(opcode) && st.outcome.target == result && st.view.r == v.r) &&
            st.view.shifterResult == v.shifterResult && st.view.shifterCarry == v.shifterCarry
  {
  }

  /**
   * After the shifter: with S set, N and Z describe the result and C is the
   * shifter's carry, while V is kept (taken from the SPSR when Rd = 15).
   * Without S the status is unchanged.
   */
  lemma LogicalFlags(k: LogicalOp, v: ArmView, opcode: bv32, spsr: bv32, rnv: bv32)
    requires |v.r| == 16
    ensures var st := LogicalAfterShift(k, v, opcode, spsr, rnv);
            var result := Combine(k, rnv, v.shifterResult);
            (SetsFlags(k, opcode) && st.outcome != ModeFault ==>
               st.view.psr.n == Sign(result) && st.view.psr.z == (result == 0) &&
               st.view.psr.c == v.shifterCarry &&
               st.view.psr.v == (if RdIsPc(opcode) then UnpackCpsr(spsr).v else v.psr.v)) &&
            (!SetsFlags(k, opcode) ==> st.view.psr == v.psr)
  {
    var result := Combine(k, rnv, v.shifterResult);
    if !RestoreFaults(k, opcode, spsr) {
      assert LogicalAfterShift(k, v, opcode, spsr, rnv).view.psr ==
             StatusAfter(k, v.psr, opcode, spsr, result, v.shifterCarry);
      StatusAfterFlags(k, v.psr, opcode, spsr, result, v.shifterCarry);
    }
  }

  lemma StatusAfterFlags(k: LogicalOp, p: Psr, opcode: bv32, spsr: bv32, result: bv32, carry: bool)
    ensures var q := StatusAfter(k, p, opcode, spsr, result, carry);
            (SetsFlags(k, opcode) ==>
               q.n == Sign(result) && q.z == (result == 0) && q.c == carry &&
               q.v == (if RdIsPc(opcode) then UnpackCpsr(spsr).v else p.v)) &&
            (!SetsFlags(k, opcode) ==> q == p)
  {
    BitTest32IsBit(result, 31);
  }

  /**
   * After the shifter, with S and Rd = 15: the CPSR is loaded from the SPSR,
   * and the load throws exactly when the SPSR holds an undefined mode.
   */
  lemma LogicalRestoresSpsr(k: LogicalOp, v: ArmView, opcode: bv32, spsr: bv32, rnv: bv32)
    requires |v.r| == 16 && SetsFlags(k, opcode) && RdIsPc(opcode)
    ensures var st := LogicalAfterShift(k, v, opcode, spsr, rnv);
            (st.outcome == ModeFault <==> !IsDefinedMode(spsr & 0x1f)) &&
            st.view.psr.mode == spsr & 0x1f &&
            st.view.psr.i == UnpackCpsr(spsr).i && st.view.psr.f == UnpackCpsr(spsr).f &&
            st.view.psr.t == UnpackCpsr(spsr).t
  {
    var st := LogicalAfterShift(k, v, opcode, spsr, rnv);
    var p := UnpackCpsr(spsr);
    var result := Combine(k, rnv, v.shifterResult);
    if IsDefinedMode(spsr & 0x1f) {
      assert st.view.psr == p.(n := BitTest32(result, 31), z := result == 0, c := v.shifterCarry);
    } else {
      assert st.view.psr == p;
    }
  }

  /** `OpcodeArmDataProcessingLogicalSetFlags`. */
  method LogicalSetFlags(cpu: Cpu, result: bv32)
    modifies cpu`flagN, cpu`flagZ, cpu`flagC
    ensures cpu.flagN == BitTest32(result, 31) && cpu.flagZ == (result == 0) && cpu.flagC == cpu.shifterCarry
  {
    cpu.flagN := BitTest32(result, 31);
    cpu.flagZ := result == 0;
    cpu.flagC := cpu.shifterCarry;
  }

  /** `OpcodeArmDataProcessingWriteRegister`: r15 goes to `PerformJump`, any other register is assigned. */
  method WriteRegister(cpu: Cpu, opcode: bv32, value: bv32) returns (outcome: ArmOutcome)
    requires cpu.Valid()
    modifies cpu.r
    ensures RdIsPc(opcode) ==> outcome == Jumped(value) && cpu.r[..] == old(cpu.r[..])
    ensures !RdIsPc(opcode) ==> outcome == Completed && cpu.r[..] == old(cpu.r[..])[Field4(opcode, 12) := value]
  {
    if RdIsPc(opcode) {
      outcome := Jumped(value);
    } else {
      cpu.r[Field4(opcode, 12)] := value;
      outcome := Completed;
    }
  }

  /**
   * The eight handlers `OpcodeArmAnd`, `OpcodeArmEor`, `OpcodeArmTst`,
   * `OpcodeArmTeq`, `OpcodeArmOrr`, `OpcodeArmMov`, `OpcodeArmBic` and
   * `OpcodeArmMvn`, which differ only in the ALU function and in TST/TEQ
   * checking S first and writing no register.
   */
  method OpcodeArmLogical(cpu: Cpu, k: LogicalOp, opcode: bv32, spsr: bv32) returns (outcome: ArmOutcome)
    requires cpu.Valid()
    modifies cpu`shifterResult, cpu`shifterCarry, cpu`flagN, cpu`flagZ, cpu`flagC, cpu`flagV,
             cpu`flagI, cpu`flagF, cpu`flagT, cpu`mode, cpu.r
    ensures cpu.Valid()
    ensures ArmStep(View(cpu), outcome) == LogicalSpec(k, old(View(cpu)), opcode, spsr)
  {
    if IsTest(k) && !BitTest32(opcode, 20) {
      return InvalidOpcode;
    }
    ghost var v := View(cpu);
    var invalid := Shifter(cpu, opcode);
    if invalid {
      assert View(cpu) == v;
      return InvalidOpcode;
    }
    var rnv := RnValue(cpu.r[..], opcode);
    ghost var v1 := View(cpu);
    assert v1 == v.(shifterResult := cpu.shifterResult, shifterCarry := cpu.shifterCarry);
    LogicalSpecUnfold(k, v, opcode, spsr);
    outcome := LogicalAfterShifter(cpu, k, opcode, spsr, rnv);
  }

  /** The part of each handler after the shifter call and the read of Rn. */
  method LogicalAfterShifter(cpu: Cpu, k: LogicalOp, opcode: bv32, spsr: bv32, rnv: bv32) returns (outcome: ArmOutcome)
    requires cpu.Valid()
    modifies cpu`shifterResult, cpu`shifterCarry, cpu`flagN, cpu`flagZ, cpu`flagC, cpu`flagV,
             cpu`flagI, cpu`flagF, cpu`flagT, cpu`mode, cpu.r
    ensures cpu.Valid()
    ensures ArmStep(View(cpu), outcome) == LogicalAfterShift(k, old(View(cpu)), opcode, spsr, rnv)
  {
    ghost var v := View(cpu);
    var result := Combine(k, rnv, cpu.shifterResult);
    var fault := LogicalUpdateStatus(cpu, k, opcode, spsr, result);
    if fault {
      outcome := ModeFault;
      LogicalFaultStep(k, v, opcode, spsr, rnv);
    } else {
      ghost var status := cpu.Status();
      if IsTest(k) {
        outcome := Completed;
      } else {
        outcome := WriteRegister(cpu, opcode, result);
      }
      LogicalNormalStep(k, v, opcode, spsr, rnv, cpu.r[..], status, outcome);
    }
  }

  lemma LogicalFaultStep(k: LogicalOp, v: ArmView, opcode: bv32, spsr: bv32, rnv: bv32)
    requires |v.r| == 16 && RestoreFaults(k, opcode, spsr)
    ensures LogicalAfterShift(k, v, opcode, spsr, rnv) == ArmStep(v.(psr := UnpackCpsr(spsr)), ModeFault)
  {
  }

  lemma LogicalNormalStep(k: LogicalOp, v: ArmView, opcode: bv32, spsr: bv32, rnv: bv32, r: seq<bv32>, p: Psr, outcome: ArmOutcome)
    requires |v.r| == 16 && !RestoreFaults(k, opcode, spsr)
    requires p == StatusAfter(k, v.psr, opcode, spsr, Combine(k, rnv, v.shifterResult), v.shifterCarry)
    requires r == RegistersAfter(k, v.r, opcode, Combine(k, rnv, v.shifterResult))
    requires outcome == OutcomeAfter(k, opcode, Combine(k, rnv, v.shifterResult))
    ensures LogicalAfterShift(k, v, opcode, spsr, rnv) == ArmStep(ArmView(r, p, v.shifterResult, v.shifterCarry), outcome)
  {
  }

  /** The `if(s)` block of a handler: the SPSR copy when Rd = 15, then the flags. */
  method LogicalUpdateStatus(cpu: Cpu, k: LogicalOp, opcode: bv32, spsr: bv32, result: bv32) returns (fault: bool)
    requires cpu.Valid()
    modifies cpu`flagN, cpu`flagZ, cpu`flagC, cpu`flagV, cpu`flagI, cpu`flagF, cpu`flagT, cpu`mode
    ensures cpu.Valid()
    ensures fault == RestoreFaults(k, opcode, spsr)
    ensures fault ==> cpu.Status() == UnpackCpsr(spsr)
    ensures !fault ==> cpu.Status() == StatusAfter(k, old(cpu.Status()), opcode, spsr, result, cpu.shifterCarry)
  {
    fault := false;
    if SetsFlags(k, opcode) {
      if RdIsPc(opcode) {
        var checked := cpu.SetCpsr(spsr);
        if checked == UndefinedMode {
          return true;
        }
      }
      LogicalSetFlags(cpu, result);
    }
  }

  // ------------------------------------------------------------- B / BL

  /** The branch offset as `OpcodeArmB` computes it: the 24-bit field times 4, not sign-extended. */
  function BranchOffsetAsWritten(opcode: bv32): bv32 {
    (opcode & 0x00ff_ffff) << 2
  }

  /** The branch offset with the 24-bit field sign-extended, as section A4.1.5 of the ARM manual defines it. */
  function BranchOffset(opcode: bv32): bv32 {
    var imm := opcode & 0x00ff_ffff;
    (if imm & 0x0080_0000 != 0 then imm | 0xff00_0000 else imm) << 2
  }

  function BranchTargetAsWritten(pc: bv32, opcode: bv32): bv32 {
    pc + BranchOffsetAsWritten(opcode)
  }

  function BranchTarget(pc: bv32, opcode: bv32): bv32 {
    pc + BranchOffset(opcode)
  }

  /** The B instruction (condition AL) an assembler emits for a byte offset from r15. */
  function EncodeBranch(offset: bv32): bv32 {
    0xea00_0000 | ((offset >> 2) & 0x00ff_ffff)
  }

  /** Word-aligned offsets in [-32 MB, 32 MB) are the ones B can reach. */
  predicate BranchReachable(offset: bv32) {
    offset & 3 == 0 && (offset >> 25 == 0 || offset >> 25 == 0x7f)
  }

  lemma ForwardBranchRoundTrip(offset: bv32)
    requires offset & 3 == 0 && offset >> 25 == 0
    ensures BranchOffset(EncodeBranch(offset)) == offset
  {
  }

  lemma BackwardBranchRoundTrip(offset: bv32)
    requires offset & 3 == 0 && offset >> 25 == 0x7f
    ensures BranchOffset(EncodeBranch(offset)) == offset
  {
  }

  /** The corrected decoding inverts the encoding for every reachable offset, backward ones included. */
  lemma BranchOffsetRoundTrip(offset: bv32)
    requires BranchReachable(offset)
    ensures BranchOffset(EncodeBranch(offset)) == offset
  {
    if offset >> 25 == 0 {
      ForwardBranchRoundTrip(offset);
    } else {
      BackwardBranchRoundTrip(offset);
    }
  }

  /**
   * As written, a backward branch lands 64 MB ahead: the branch-to-self
   * opcode 0xEAFFFFFE (offset -8) fetched at 0x08000000, so executed with
   * r15 = 0x08000008, targets 0x0C000000 instead of 0x08000000.
   */
  lemma BranchOffsetAsWrittenCounterexample()
    ensures BranchReachable(0xffff_fff8) && EncodeBranch(0xffff_fff8) == 0xeaff_fffe
    ensures BranchOffset(0xeaff_fffe) == 0xffff_fff8
    ensures BranchOffsetAsWritten(0xeaff_fffe) == 0x03ff_fff8
    ensures BranchTargetAsWritten(0x0800_0008, 0xeaff_fffe) == 0x0c00_0000
    ensures BranchTarget(0x0800_0008, 0xeaff_fffe) == 0x0800_0000
  {
  }

  /** For forward offsets (bit 23 clear) both decodings agree. */
  lemma BranchForwardAgrees(opcode: bv32)
    requires opcode & 0x0080_0000 == 0
    ensures BranchOffsetAsWritten(opcode) == BranchOffset(opcode)
  {
  }

  /** The address of the instruction after a BL, stored in r14: r15 is 8 ahead of the branch. */
  function LinkAddress(pc: bv32): bv32 {
    pc - 4
  }

  /** `OpcodeArmB`: with L set r14 receives r15 - 4; the target goes to `PerformJump`. */
  method OpcodeArmB(cpu: Cpu, opcode: bv32) returns (outcome: ArmOutcome)
    requires cpu.Valid()
    modifies cpu.r
    ensures outcome == Jumped(BranchTargetAsWritten(old(cpu.r[15]), opcode))
    ensures cpu.r[..] == if BitTest32(opcode, 24) then old(cpu.r[..])[14 := LinkAddress(old(cpu.r[15]))] else old(cpu.r[..])
  {
    var l := BitTest32(opcode, 24);
    if l {
      cpu.r[14] := LinkAddress(cpu.r[15]);
    }
    outcome := Jumped(BranchTargetAsWritten(cpu.r[15], opcode));
  }
}
