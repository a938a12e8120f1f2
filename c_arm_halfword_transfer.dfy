// src/core/cpu/op_arm_halfwordsigneddatatransfer.c: LDRH, STRH, LDRSB and
// LDRSH (`cpuOpcodeArmHalfwordSignedDataTransfer`) over the CPU state of
// CCpu. Bus reads are functions of the address; the one bus write a store
// makes is returned, in the form of Single.

module CArmHalfwordTransfer {
  import opened Bits
  import ArmRef
  import CBitops
  import opened CCpu
  import Single = CArmSingleTransfer

  /** The opcode's fields and the values the handler computes before the access. */
  datatype Setup = Setup(pre: bool, up: bool, writeBack: bool, load: bool, signed: bool, halfword: bool,
                         rn: nat, rd: nat, base: bv32, offset: bv32, address: bv32)

  /** Lines 21-26: the split 8-bit immediate, or Rm as the register array holds it. */
  function Offset(r: seq<bv32>, op: bv32): bv32
    requires |r| == 16
  {
    if Flag(op, 0x40_0000) then ((op & 0xf00) >> 4) | (op & 0xf) else r[Field4(op, 0)]
  }

  /** Lines 8-35. */
  function SetupOf(s: CpuState, op: bv32): (c: Setup)
    requires Good(s)
    ensures c.rn < 16 && c.rd < 16
  {
    var pre, up := Flag(op, 0x100_0000), Flag(op, 0x80_0000);
    var rn := Field4(op, 16);
    var base, offset := s.banks.r[rn], Offset(s.banks.r, op);
    Setup(pre, up, Flag(op, 0x20_0000), Flag(op, 0x10_0000), Flag(op, 0x40), Flag(op, 0x20), rn, Field4(op, 12),
          base, offset, if pre then Single.Indexed(up, base, offset) else base)
  }

  /** Lines 37-61: the value a load puts in Rd. */
  function Loaded(c: Setup, read8: bv32 -> bv8, read16: bv32 -> bv16): bv32 {
    if c.halfword then HalfLoaded(read16(c.address), c.address & 1 != 0, c.signed)
    else ByteLoaded(read8(c.address), c.signed)
  }

  /** Lines 41-55: the halfword read, adjusted for a signed or a misaligned load. */
  function HalfLoaded(h: bv16, misaligned: bool, signed: bool): bv32 {
    if signed then
      if misaligned then CBitops.SignExtend8to32(Hi8(h)) else CBitops.SignExtend16to32(h)
    else if misaligned then CBitops.RotateRight(h as bv32, 8)
    else h as bv32
  }

  /** Lines 56-61: the byte read, sign-extended for LDRSB. */
  function ByteLoaded(b: bv8, signed: bool): bv32 {
    if signed then CBitops.SignExtend8to32(b) else b as bv32
  }

  /** Lines 37-72: a load goes through `cpuWriteRegister`; a store writes the low half or byte of Rd. */
  function Access(c: Setup, s: CpuState, read8: bv32 -> bv8, read16: bv32 -> bv16): (o: Single.Outcome)
    requires Good(s) && c.rd < 16
    ensures Good(o.s)
  {
    if c.load then Single.Outcome(WriteRegisterSpec(s, c.rd, Loaded(c, read8, read16)), None)
    else if c.halfword then Single.Outcome(s, Some(Single.Write16(c.address, Truncate16(s.banks.r[c.rd]))))
    else Single.Outcome(s, Some(Single.Write8(c.address, ByteOf(s.banks.r[c.rd], 0))))
  }

  /** A word passed as the `uint16_t` value of `busWrite16`. */
  function Truncate16(v: bv32): bv16 {
    (v & 0xffff) as bv16
  }

  /** Lines 75-81: the address after the access, moved by the offset when post-indexed. */
  function FinalBase(c: Setup): bv32 {
    if c.pre then c.address else Single.Indexed(c.up, c.address, c.offset)
  }

  /** Line 74: writeback when post-indexed or W is set, unless a load has just written Rn. */
  predicate WritesBack(c: Setup) {
    (!c.pre || c.writeBack) && !(c.load && c.rd == c.rn)
  }

  function WriteBack(c: Setup, o: Single.Outcome): (o': Single.Outcome)
    requires Good(o.s) && c.rn < 16
    ensures Good(o'.s)
  {
    if WritesBack(c) then Single.Outcome(WriteRegisterSpec(o.s, c.rn, FinalBase(c)), o.write) else o
  }

  /** `cpuOpcodeArmHalfwordSignedDataTransfer`. */
  function Transfer(s: CpuState, op: bv32, read8: bv32 -> bv8, read16: bv32 -> bv16): (o: Single.Outcome)
    requires Good(s)
    ensures Good(o.s)
  {
    var c := SetupOf(s, op);
    WriteBack(c, Access(c, s, read8, read16))
  }

  // ------------------------------------------------------------ the methods

  /** `cpuOpcodeArmHalfwordSignedDataTransfer`. */
  method HalfwordSignedDataTransfer(cpu: Cpu, op: bv32, read8: bv32 -> bv8, read16: bv32 -> bv16)
    returns (write: Option<Single.BusWrite>)
    requires cpu.Valid()
    modifies cpu.Registers()
    ensures cpu.Valid() && Single.Outcome(cpu.State(), write) == Transfer(old(cpu.State()), op, read8, read16)
  {
    var c := Prepare(cpu, op);
    write := AccessBus(cpu, c, read8, read16);
    BaseUpdate(cpu, c, write);
  }

  /** Lines 8-35: the fields, the offset and the address. */
  method Prepare(cpu: Cpu, op: bv32) returns (c: Setup)
    requires cpu.Valid()
    ensures c == SetupOf(cpu.State(), op)
  {
    var pre, up := Flag(op, 0x100_0000), Flag(op, 0x80_0000);
    var rn, rd := Field4(op, 16), Field4(op, 12);
    var rnValue := cpu.r[rn];
    var offset;
    if Flag(op, 0x40_0000) {
      offset := ((op & 0xf00) >> 4) | (op & 0xf);
    } else {
      offset := cpu.r[Field4(op, 0)];
    }
    var address := rnValue;
    if pre {
      address := Single.Indexed(up, address, offset);
    }
    c := Setup(pre, up, Flag(op, 0x20_0000), Flag(op, 0x10_0000), Flag(op, 0x40), Flag(op, 0x20), rn, rd,
               rnValue, offset, address);
  }

  /** Lines 37-61: the load's value. */
  method LoadValue(c: Setup, read8: bv32 -> bv8, read16: bv32 -> bv16) returns (value: bv32)
    ensures value == Loaded(c, read8, read16)
  {
    if c.halfword {
      var misaligned := c.address & 1 != 0;
      value := ExtendHalf(read16(c.address), misaligned, c.signed);
    } else {
      value := read8(c.address) as bv32;
      if c.signed {
        value := CBitops.SignExtend8to32(value as bv8);
      }
    }
  }

  /** Lines 42-55. */
  method ExtendHalf(h: bv16, misaligned: bool, signed: bool) returns (value: bv32)
    ensures value == HalfLoaded(h, misaligned, signed)
  {
    value := h as bv32;
    if signed {
      if misaligned {
        value := CBitops.SignExtend8to32(Hi8(h));
      } else {
        value := CBitops.SignExtend16to32(h);
      }
    } else if misaligned {
      value := CBitops.RotateRight(value, 8);
    }
  }

  /** Lines 37-72. */
  method AccessBus(cpu: Cpu, c: Setup, read8: bv32 -> bv8, read16: bv32 -> bv16) returns (write: Option<Single.BusWrite>)
    requires cpu.Valid() && c.rd < 16
    modifies cpu.Registers()
    ensures cpu.Valid() && Single.Outcome(cpu.State(), write) == Access(c, old(cpu.State()), read8, read16)
  {
    write := None;
    if c.load {
      var value := LoadValue(c, read8, read16);
      cpu.WriteRegister(c.rd, value);
    } else if c.halfword {
      write := Some(Single.Write16(c.address, Truncate16(cpu.r[c.rd])));
    } else {
      write := Some(Single.Write8(c.address, ByteOf(cpu.r[c.rd], 0)));
    }
  }

  /** Lines 74-84. */
  method BaseUpdate(cpu: Cpu, c: Setup, ghost write: Option<Single.BusWrite>)
    requires cpu.Valid() && c.rn < 16
    modifies cpu.Registers()
    ensures cpu.Valid() && Single.Outcome(cpu.State(), write) == WriteBack(c, Single.Outcome(old(cpu.State()), write))
  {
    if (!c.pre || c.writeBack) && !(c.load && c.rd == c.rn) {
      var address := c.address;
      if !c.pre {
        address := Single.Indexed(c.up, address, c.offset);
      }
      cpu.WriteRegister(c.rn, address);
    }
  }

  // ------------------------------------------------------------ properties

  /**
   * The offset is the one of addressing mode 3 (section A5.3 of the ARM
   * Architecture Reference Manual): bits 11-8 above bits 3-0 when I is
   * set, Rm otherwise.
   */
  lemma OffsetIsReference(r: seq<bv32>, op: bv32)
    requires |r| == 16
    ensures Offset(r, op) == if op & 0x40_0000 != 0 then ArmRef.SplitImmediate(op) else r[op & 0xf]
    ensures op & 0x40_0000 != 0 ==> Offset(r, op) < 0x100
  {
  }

  /** The access is at the address of addressing mode 3, and the base written back is Rn moved by the offset. */
  lemma AddressIsReference(s: CpuState, op: bv32)
    requires Good(s)
    ensures var c := SetupOf(s, op);
            c.base == s.banks.r[c.rn] && c.address == ArmRef.IndexedAddress(c.pre, c.up, c.base, c.offset) &&
            FinalBase(c) == ArmRef.IndexedWriteBack(c.up, c.base, c.offset)
  {
    var c := SetupOf(s, op);
    Single.IndexedIsReference(c.pre, c.up, c.base, c.offset);
  }

  /** LDRH at an even address zero-extends the halfword; at an odd one it rotates it right by a byte. */
  lemma UnsignedHalfwordLoad(h: bv16, misaligned: bool)
    ensures HalfLoaded(h, misaligned, false) == if misaligned then ArmRef.Ror(h as bv32, 8) else h as bv32
  {
    if misaligned {
      CBitops.RotateRightIsRor(h as bv32, 8);
    }
  }

  /** The rotated halfword has the addressed byte at the bottom and the other one at the top. */
  lemma RotatedHalf(h: bv16)
    ensures var value := ArmRef.Ror(h as bv32, 8);
            ByteOf(value, 0) == Hi8(h) && ByteOf(value, 3) == Lo8(h) && value & 0x00ff_ff00 == 0
  {
  }

  /**
   * LDRSH at an even address sign-extends the halfword; at an odd one it
   * sign-extends the halfword's upper byte, the byte at that address.
   */
  lemma SignedHalfwordLoad(h: bv16, misaligned: bool)
    ensures var value := HalfLoaded(h, misaligned, true);
            if misaligned then value & 0xff == Hi8(h) as bv32 && forall k: bv32 :: 8 <= k < 32 ==> (Bit(value, k) <==> Bit(h as bv32, 15))
            else value & 0xffff == h as bv32 && forall k: bv32 :: 16 <= k < 32 ==> (Bit(value, k) <==> Bit(h as bv32, 15))
  {
    if misaligned {
      UpperByte(h);
    }
  }

  lemma UpperByte(h: bv16)
    ensures Bit(Hi8(h) as bv32, 7) <==> Bit(h as bv32, 15)
  {
  }

  /** LDRSB sign-extends the byte read. */
  lemma SignedByteLoad(b: bv8)
    ensures var value := ByteLoaded(b, true);
            value & 0xff == b as bv32 && forall k: bv32 :: 8 <= k < 32 ==> (Bit(value, k) <==> Bit(b as bv32, 7))
  {
  }

  /** STRH writes the two low bytes of Rd at the access address. */
  lemma StoreHalfword(s: CpuState, op: bv32, read8: bv32 -> bv8, read16: bv32 -> bv16)
    requires Good(s) && !Flag(op, 0x10_0000) && Flag(op, 0x20)
    ensures var c := SetupOf(s, op);
            Transfer(s, op, read8, read16).write
            == Some(Single.Write16(c.address, Join8(ByteOf(s.banks.r[c.rd], 0), ByteOf(s.banks.r[c.rd], 1))))
  {
    var c := SetupOf(s, op);
    LowHalf(s.banks.r[c.rd]);
  }

  /** STRB writes the low byte of Rd at the access address. */
  lemma StoreByte(s: CpuState, op: bv32, read8: bv32 -> bv8, read16: bv32 -> bv16)
    requires Good(s) && !Flag(op, 0x10_0000) && !Flag(op, 0x20)
    ensures var c := SetupOf(s, op);
            Transfer(s, op, read8, read16).write == Some(Single.Write8(c.address, ByteOf(s.banks.r[c.rd], 0)))
  {
  }

  lemma LowHalf(v: bv32)
    ensures Join8(ByteOf(v, 0), ByteOf(v, 1)) == Truncate16(v)
  {
  }

  /**
   * After the handler, register `k` below r15 holds the loaded value when
   * it is the Rd of a load, even when it is also Rn; the moved base when it
   * is Rn and the handler writes back; and its old value otherwise. The
   * CPSR is kept.
   */
  lemma RegisterAfter(s: CpuState, op: bv32, read8: bv32 -> bv8, read16: bv32 -> bv16, k: nat)
    requires Good(s) && k < 15
    ensures var c := SetupOf(s, op);
            Transfer(s, op, read8, read16).s.banks.r[k]
            == if c.load && k == c.rd then Loaded(c, read8, read16)
               else if WritesBack(c) && k == c.rn then FinalBase(c)
               else s.banks.r[k]
  {
    var c := SetupOf(s, op);
    var a := Access(c, s, read8, read16);
    if c.load {
      WriteRegisterAt(s, c.rd, Loaded(c, read8, read16), k);
    }
    if WritesBack(c) {
      WriteRegisterAt(a.s, c.rn, FinalBase(c), k);
    }
  }

  /** The handler never changes the CPSR. */
  lemma KeepsPsr(s: CpuState, op: bv32, read8: bv32 -> bv8, read16: bv32 -> bv16)
    requires Good(s)
    ensures Transfer(s, op, read8, read16).s.psr == s.psr
  {
    var c := SetupOf(s, op);
    var a := Access(c, s, read8, read16);
    if c.load {
      WriteRegisterAt(s, c.rd, Loaded(c, read8, read16), 0);
    }
    if WritesBack(c) {
      WriteRegisterAt(a.s, c.rn, FinalBase(c), 0);
    }
  }

  /** A load into r15 jumps: the pipeline is flushed and the value aligned. */
  lemma LoadPcJumps(s: CpuState, op: bv32, read8: bv32 -> bv8, read16: bv32 -> bv16)
    requires Good(s) && Flag(op, 0x10_0000) && Field4(op, 12) == 15 && Flag(op, 0x100_0000) && !Flag(op, 0x20_0000)
    ensures var o := Transfer(s, op, read8, read16);
            o.s.stage == FlushState && o.s.banks.r[15] == Aligned(Loaded(SetupOf(s, op), read8, read16), s.psr.t)
  {
  }
}
