// src/core/cpu/op_arm_singledatatransfer.c: LDR, STR, LDRB and STRB
// (`cpuOpcodeArmSingleDataTransfer` and its `getOperand`) over the CPU
// state of CCpu. Bus reads are functions of the address; the one bus write
// an access makes is returned.

module CArmSingleTransfer {
  import opened Bits
  import ArmRef
  import CArmDataProcessing
  import opened CCpu

  /** A write on the bus: `busWrite8`, `busWrite16` or `busWrite32`. */
  datatype BusWrite = Write8(address: bv32, byte: bv8) | Write16(address: bv32, half: bv16)
                    | Write32(address: bv32, word: bv32)

  /** The CPU state after an access, and the bus write it made, if any. */
  datatype Outcome = Outcome(s: CpuState, write: Option<BusWrite>)

  /**
   * `getOperand` (lines 60-139): bits 11-0, or Rm shifted by bits 11-7 as
   * the immediate-shift form of `getOperand2` shifts it, with r15 read 4
   * further on, and the shifter carry the switch leaves behind. RRX leaves
   * the carry as it was.
   */
  function Offset(r: seq<bv32>, op: bv32, c: bool, carry: bool): ArmRef.Shifted
    requires |r| == 16
  {
    if op & 0x200_0000 == 0 then ArmRef.Shifted(op & 0xfff, carry)
    else
      var t, amount := (op & 0x60) >> 5, (op & 0xf80) >> 7;
      var f := CArmDataProcessing.ImmediateShiftForm(t, CArmDataProcessing.ShiftedRm(r, op), amount, c);
      if t == 3 && amount == 0 then ArmRef.Shifted(f.value, carry) else f
  }

  /** `l_address += l_offset` or `l_address -= l_offset`, by U. */
  function Indexed(up: bool, base: bv32, offset: bv32): bv32 {
    if up then base + offset else base - offset
  }

  /** The opcode's fields and the values the handler computes before the access. */
  datatype Setup = Setup(pre: bool, up: bool, byte: bool, writeBack: bool, load: bool, rn: nat, rd: nat,
                         base: bv32, offset: bv32, carry: bool, address: bv32)

  /** Lines 12-31. */
  function SetupOf(s: CpuState, op: bv32): (c: Setup)
    requires Good(s)
    ensures c.rn < 16 && c.rd < 16
  {
    var pre, up := Flag(op, 0x100_0000), Flag(op, 0x80_0000);
    var rn := Field4(op, 16);
    var base := s.banks.r[rn];
    var o := Offset(s.banks.r, op, s.psr.c, s.shifterCarry);
    Setup(pre, up, Flag(op, 0x40_0000), Flag(op, 0x20_0000), Flag(op, 0x10_0000), rn, Field4(op, 12),
          base, o.value, o.carry, if pre then Indexed(up, base, o.value) else base)
  }

  /** Lines 34-38: the word, or the byte zero-extended, that a load reads. */
  function Loaded(c: Setup, read8: bv32 -> bv8, read32: bv32 -> bv32): bv32 {
    if c.byte then read8(c.address) as bv32 else read32(c.address)
  }

  /**
   * Lines 33-45: the access. As written a load stores into the register
   * array, r15 included, with no `cpuJump`; corrected it goes through
   * `cpuWriteRegister`, as the halfword handler's loads do.
   */
  function Access(c: Setup, s: CpuState, read8: bv32 -> bv8, read32: bv32 -> bv32, corrected: bool): (o: Outcome)
    requires Good(s) && c.rd < 16
    ensures Good(o.s)
  {
    if c.load then
      var value := Loaded(c, read8, read32);
      Outcome(if corrected then WriteRegisterSpec(s, c.rd, value) else SetR(s, c.rd, value), None)
    else if c.byte then Outcome(s, Some(Write8(c.address, ByteOf(s.banks.r[c.rd], 0))))
    else Outcome(s, Some(Write32(c.address, s.banks.r[c.rd])))
  }

  /** Lines 48-54: the address after the access, moved by the offset when post-indexed. */
  function FinalBase(c: Setup): bv32 {
    if c.pre then c.address else Indexed(c.up, c.address, c.offset)
  }

  /** Lines 47-57: writeback when post-indexed or W is set. */
  predicate WritesBack(c: Setup) {
    !c.pre || c.writeBack
  }

  function WriteBack(c: Setup, o: Outcome): (o': Outcome)
    requires Good(o.s) && c.rn < 16
    ensures Good(o'.s)
  {
    if WritesBack(c) then Outcome(WriteRegisterSpec(o.s, c.rn, FinalBase(c)), o.write) else o
  }

  /** `cpuOpcodeArmSingleDataTransfer`: as written, or with loads through `cpuWriteRegister`. */
  function Transfer(s: CpuState, op: bv32, read8: bv32 -> bv8, read32: bv32 -> bv32, corrected: bool): (o: Outcome)
    requires Good(s)
    ensures Good(o.s)
  {
    var c := SetupOf(s, op);
    WriteBack(c, Access(c, s.(shifterCarry := c.carry), read8, read32, corrected))
  }

  // ------------------------------------------------------------ the methods

  /** `cpuOpcodeArmSingleDataTransfer`. */
  method SingleDataTransfer(cpu: Cpu, op: bv32, read8: bv32 -> bv8, read32: bv32 -> bv32)
    returns (write: Option<BusWrite>)
    requires cpu.Valid()
    modifies cpu.Registers()
    ensures cpu.Valid() && Outcome(cpu.State(), write) == Transfer(old(cpu.State()), op, read8, read32, false)
  {
    var c := Prepare(cpu, op);
    write := AccessBus(cpu, c, read8, read32);
    BaseUpdate(cpu, c, write);
  }

  /** Lines 12-31: the fields, the offset and the address. */
  method Prepare(cpu: Cpu, op: bv32) returns (c: Setup)
    requires cpu.Valid()
    modifies cpu
    ensures cpu.Valid() && c == SetupOf(old(cpu.State()), op)
    ensures cpu.State() == old(cpu.State()).(shifterCarry := c.carry)
  {
    var pre, up := Flag(op, 0x100_0000), Flag(op, 0x80_0000);
    var rn := Field4(op, 16);
    var rnValue := cpu.r[rn];
    var offset := GetOperand(cpu, op);
    var address := rnValue;
    if pre {
      address := Indexed(up, address, offset);
    }
    c := Setup(pre, up, Flag(op, 0x40_0000), Flag(op, 0x20_0000), Flag(op, 0x10_0000), rn, Field4(op, 12),
               rnValue, offset, cpu.shifterCarry, address);
  }

  /** `getOperand`. */
  method GetOperand(cpu: Cpu, op: bv32) returns (offset: bv32)
    requires cpu.Valid()
    modifies cpu
    ensures cpu.Valid()
    ensures var o := Offset(old(cpu.State()).banks.r, op, old(cpu.psr.c), old(cpu.shifterCarry));
            offset == o.value && cpu.State() == old(cpu.State()).(shifterCarry := o.carry)
  {
    if op & 0x200_0000 == 0 {
      offset := op & 0xfff;
    } else {
      var t, amount := (op & 0x60) >> 5, (op & 0xf80) >> 7;
      var shifted := CArmDataProcessing.ImmediateShiftForm(t, CArmDataProcessing.ShiftedRm(cpu.r[..], op), amount, cpu.psr.c);
      offset := shifted.value;
      if !(t == 3 && amount == 0) {
        cpu.shifterCarry := shifted.carry;
      }
    }
  }

  /** Lines 33-45. */
  method AccessBus(cpu: Cpu, c: Setup, read8: bv32 -> bv8, read32: bv32 -> bv32) returns (write: Option<BusWrite>)
    requires cpu.Valid() && c.rd < 16
    modifies cpu.r
    ensures cpu.Valid() && Outcome(cpu.State(), write) == Access(c, old(cpu.State()), read8, read32, false)
  {
    write := None;
    if c.load {
      if c.byte {
        cpu.r[c.rd] := read8(c.address) as bv32;
      } else {
        cpu.r[c.rd] := read32(c.address);
      }
    } else if c.byte {
      write := Some(Write8(c.address, ByteOf(cpu.r[c.rd], 0)));
    } else {
      write := Some(Write32(c.address, cpu.r[c.rd]));
    }
  }

  /** Lines 47-57. */
  method BaseUpdate(cpu: Cpu, c: Setup, ghost write: Option<BusWrite>)
    requires cpu.Valid() && c.rn < 16
    modifies cpu.Registers()
    ensures cpu.Valid() && Outcome(cpu.State(), write) == WriteBack(c, Outcome(old(cpu.State()), write))
  {
    if !c.pre || c.writeBack {
      var address := c.address;
      if !c.pre {
        address := Indexed(c.up, address, c.offset);
      }
      cpu.WriteRegister(c.rn, address);
    }
  }

  // ------------------------------------------------------------ properties

  /**
   * The offset is the one of addressing mode 2 (section A5.2 of the ARM
   * Architecture Reference Manual): bits 11-0, or Rm shifted by the
   * architecture's immediate shifts, with r15 read 4 further on.
   */
  lemma OffsetIsReference(r: seq<bv32>, op: bv32, c: bool, carry: bool)
    requires |r| == 16
    ensures Offset(r, op, c, carry).value
            == if op & 0x200_0000 == 0 then op & 0xfff
               else ArmRef.ShiftByImmediate(ArmRef.ShiftTypeOf(op), (op >> 7) & 0x1f,
                                            CArmDataProcessing.ShiftedRm(r, op), c).value
  {
    if op & 0x200_0000 != 0 {
      ShiftedByImmediate(r, op, c);
    }
  }

  /** The shifted forms leave the architecture's carry out, except RRX, which leaves the carry as it was. */
  lemma OffsetCarry(r: seq<bv32>, op: bv32, c: bool, carry: bool)
    requires |r| == 16 && op & 0x200_0000 != 0
    ensures Offset(r, op, c, carry).carry
            == if (op & 0x60) >> 5 == 3 && (op & 0xf80) >> 7 == 0 then carry
               else ArmRef.ShiftByImmediate(ArmRef.ShiftTypeOf(op), (op >> 7) & 0x1f,
                                            CArmDataProcessing.ShiftedRm(r, op), c).carry
  {
    ShiftedByImmediate(r, op, c);
  }

  /** The immediate-shift form of `getOperand2` on a register-offset opcode is the architecture's. */
  lemma ShiftedByImmediate(r: seq<bv32>, op: bv32, c: bool)
    requires |r| == 16
    ensures CArmDataProcessing.ImmediateShiftForm((op & 0x60) >> 5, CArmDataProcessing.ShiftedRm(r, op), (op & 0xf80) >> 7, c)
            == ArmRef.ShiftByImmediate(ArmRef.ShiftTypeOf(op), (op >> 7) & 0x1f, CArmDataProcessing.ShiftedRm(r, op), c)
  {
    var t, rm, amount := (op & 0x60) >> 5, CArmDataProcessing.ShiftedRm(r, op), (op & 0xf80) >> 7;
    CArmDataProcessing.ShiftTypeField(op);
    assert amount == (op >> 7) & 0x1f;
    if t == 0 {
      CArmDataProcessing.ImmediateLsl(rm, amount, c);
    } else if t == 1 {
      CArmDataProcessing.ImmediateLsr(rm, amount, c);
    } else if t == 2 {
      CArmDataProcessing.ImmediateAsr(rm, amount, c);
    } else {
      CArmDataProcessing.ImmediateRor(rm, amount, c);
    }
  }

  /** The access is at the address of addressing mode 2: Rn moved by the offset when pre-indexed, Rn when post-indexed. */
  lemma AddressIsReference(s: CpuState, op: bv32)
    requires Good(s)
    ensures var c := SetupOf(s, op);
            c.address == ArmRef.IndexedAddress(c.pre, c.up, c.base, c.offset) && c.base == s.banks.r[c.rn]
  {
    var c := SetupOf(s, op);
    IndexedIsReference(c.pre, c.up, c.base, c.offset);
  }

  lemma IndexedIsReference(pre: bool, up: bool, base: bv32, offset: bv32)
    ensures (if pre then Indexed(up, base, offset) else base) == ArmRef.IndexedAddress(pre, up, base, offset)
  {
  }

  /** Pre- or post-indexed, the base written back is Rn moved by the offset. */
  lemma FinalBaseIsReference(s: CpuState, op: bv32)
    requires Good(s)
    ensures var c := SetupOf(s, op);
            FinalBase(c) == ArmRef.IndexedWriteBack(c.up, c.base, c.offset)
  {
  }

  /**
   * After the handler, register `k` below r15 holds the moved base when it
   * is Rn and the handler writes back (overriding a load into the same
   * register), the loaded value when it is the Rd of a load, and its old
   * value otherwise. The CPSR is kept.
   */
  lemma RegisterAfter(s: CpuState, op: bv32, read8: bv32 -> bv8, read32: bv32 -> bv32, corrected: bool, k: nat)
    requires Good(s) && k < 15
    ensures var c := SetupOf(s, op);
            Transfer(s, op, read8, read32, corrected).s.banks.r[k]
            == if WritesBack(c) && k == c.rn then FinalBase(c)
               else if c.load && k == c.rd then Loaded(c, read8, read32)
               else s.banks.r[k]
  {
    var c := SetupOf(s, op);
    var s1 := s.(shifterCarry := c.carry);
    var a := Access(c, s1, read8, read32, corrected);
    if c.load {
      WriteRegisterAt(s1, c.rd, Loaded(c, read8, read32), k);
    }
    if WritesBack(c) {
      WriteRegisterAt(a.s, c.rn, FinalBase(c), k);
    }
  }

  /** The handler never changes the CPSR. */
  lemma KeepsPsr(s: CpuState, op: bv32, read8: bv32 -> bv8, read32: bv32 -> bv32, corrected: bool)
    requires Good(s)
    ensures Transfer(s, op, read8, read32, corrected).s.psr == s.psr
  {
    var c := SetupOf(s, op);
    var s1 := s.(shifterCarry := c.carry);
    var a := Access(c, s1, read8, read32, corrected);
    if c.load {
      WriteRegisterAt(s1, c.rd, Loaded(c, read8, read32), 0);
    }
    if WritesBack(c) {
      WriteRegisterAt(a.s, c.rn, FinalBase(c), 0);
    }
  }

  /** A byte load zero-extends: the register gets the byte read, with bits 31-8 clear. */
  lemma ByteLoadZeroExtends(c: Setup, read8: bv32 -> bv8, read32: bv32 -> bv32)
    requires c.byte
    ensures Loaded(c, read8, read32) < 0x100 && ByteOf(Loaded(c, read8, read32), 0) == read8(c.address)
  {
  }

  /**
   * A store writes Rd as it was before writeback, its low byte for STRB,
   * at the access address.
   */
  lemma StoreWrites(s: CpuState, op: bv32, read8: bv32 -> bv8, read32: bv32 -> bv32, corrected: bool)
    requires Good(s) && !Flag(op, 0x10_0000)
    ensures var c := SetupOf(s, op);
            Transfer(s, op, read8, read32, corrected).write
            == Some(if c.byte then Write8(c.address, ByteOf(s.banks.r[c.rd], 0)) else Write32(c.address, s.banks.r[c.rd]))
  {
  }

  /** As written, a load into r15 without writeback neither flushes the pipeline nor aligns the word. */
  lemma LoadPcAsWritten(s: CpuState, op: bv32, read8: bv32 -> bv8, read32: bv32 -> bv32)
    requires Good(s) && Flag(op, 0x10_0000) && Field4(op, 12) == 15 && Flag(op, 0x100_0000) && !Flag(op, 0x20_0000)
    ensures var o := Transfer(s, op, read8, read32, false);
            o.s.stage == s.stage && o.s.banks.r[15] == Loaded(SetupOf(s, op), read8, read32)
  {
  }

  /** Corrected, it jumps: the pipeline is flushed and the word aligned. */
  lemma LoadPcIntended(s: CpuState, op: bv32, read8: bv32 -> bv8, read32: bv32 -> bv32)
    requires Good(s) && Flag(op, 0x10_0000) && Field4(op, 12) == 15 && Flag(op, 0x100_0000) && !Flag(op, 0x20_0000)
    ensures var o := Transfer(s, op, read8, read32, true);
            o.s.stage == FlushState && o.s.banks.r[15] == Aligned(Loaded(SetupOf(s, op), read8, read32), s.psr.t)
  {
  }

  /** LDR pc, [r0] in the execute stage: as written the pipeline goes on; corrected it is flushed. */
  lemma LoadPcCounterexample(s: CpuState, read8: bv32 -> bv8, read32: bv32 -> bv32)
    requires Good(s) && s.stage == ExecuteState
    ensures Transfer(s, 0xe590_f000, read8, read32, false).s.stage == ExecuteState
    ensures Transfer(s, 0xe590_f000, read8, read32, true).s.stage == FlushState
  {
    LoadPcAsWritten(s, 0xe590_f000, read8, read32);
    LoadPcIntended(s, 0xe590_f000, read8, read32);
  }
}
