// src/core/cpu/op_arm_blockdatatransfer.c: LDM and STM (`cpuOpcodeArmLdmStm`)
// over the CPU state of CCpu. Bus reads are a function of the address. Bus
// writes, and the writes to the user bank that `cpuWriteRegisterUsr` makes,
// are returned as a list of effects in order; `cpuReadRegisterUsr` is a
// function of the register index.

module CArmBlockTransfer {
  import opened Bits
  import ArmRef
  import CBitops
  import opened CRegisterList
  import opened CCpu

  /** What a transfer does outside the CPU state of CCpu. */
  datatype Effect = BusWrite(address: bv32, value: bv32) | UserWrite(index: nat, value: bv32)

  /** The CPU state after a transfer, with its effects in order. */
  datatype Outcome = Outcome(s: CpuState, effects: seq<Effect>)

  /** Effects `e` happen before those of `o`. */
  function Then(e: seq<Effect>, o: Outcome): Outcome {
    Outcome(o.s, e + o.effects)
  }

  /** `4 * count` as a 32-bit offset: four bytes per register. */
  function Span(count: nat): bv32 {
    if count == 0 then 0 else Span(count - 1) + 4
  }

  /** The opcode's fields and the values the C code computes before it moves a register. */
  datatype Setup = Setup(pre: bool, up: bool, writeBack: bool, load: bool, user: bool,
                         pcListed: bool, rn: nat, rnFirst: bool, rnListed: bool, empty: bool,
                         count: nat, base: bv32, start: bv32, finalBase: bv32)

  /** Lines 11-20 and 55-68: P, U, S, W and L, Rn, the list, its length and the first address. */
  function SetupOf(s: CpuState, op: bv32): (c: Setup)
    requires Good(s)
    ensures c.rn < 16 && c.count <= 16
  {
    var rn := Field4(op, 16);
    var pre := Flag(op, 0x100_0000);
    var up := Flag(op, 0x80_0000);
    var count := CBitops.Ones(Lo16(op), 16);
    var base := s.banks.r[rn];
    CBitops.OnesBound(Lo16(op), 16);
    Setup(pre, up, Flag(op, 0x20_0000), Flag(op, 0x10_0000), Flag(op, 0x40_0000), Flag(op, 0x8000),
          rn, rn == FirstListed(op, 16), Tests(op, 1 << ((op >> 16) & 0xf)), op & 0xffff == 0,
          count, base, ArmRef.MultipleStart(pre, up, base, Span(count)),
          ArmRef.MultipleWriteBack(up, base, Span(count)))
  }

  /** Lines 88-107: the word an STM writes for register `i`. */
  function Stored(c: Setup, s: CpuState, i: nat, readUsr: nat -> bv32): bv32
    requires Good(s) && i < 16
  {
    if c.user then (if i == 15 then s.banks.r[15] + 4 else readUsr(i))
    else if i == 15 then s.banks.r[15] + 4
    else if i == c.rn && !c.rnFirst && c.writeBack then c.finalBase
    else s.banks.r[i]
  }

  /**
   * Lines 76-86: an LDM of register `i` that reads `value`. With `corrected`,
   * an LDM with S set and R15 listed loads the register as the architecture
   * requires, and restores the CPSR before loading R15; as written it loads
   * nothing.
   */
  function Load(c: Setup, s: CpuState, i: nat, value: bv32, corrected: bool): (o: Outcome)
    requires Good(s) && i < 16
    ensures Good(o.s)
  {
    if c.user then
      if c.pcListed then
        if corrected then
          if i == 15 then Outcome(JumpSpec(SetCpsrSpec(s, SpsrOf(s)), value), [])
          else Outcome(WriteRegisterSpec(s, i, value), [])
        else Outcome(if i == 15 then SetCpsrSpec(s, SpsrOf(s)) else s, [])
      else Outcome(s, [UserWrite(i, value)])
    else Outcome(WriteRegisterSpec(s, i, value), [])
  }

  /** Lines 75-111: the transfer of listed register `i` at `address`. */
  function Move(c: Setup, s: CpuState, i: nat, address: bv32, read32: bv32 -> bv32,
                readUsr: nat -> bv32, corrected: bool): (o: Outcome)
    requires Good(s) && i < 16
    ensures Good(o.s)
  {
    if c.load then Load(c, s, i, read32(address), corrected)
    else Outcome(s, [BusWrite(address, Stored(c, s, i, readUsr))])
  }

  /** Lines 70-118: the registers from `i` on, each listed one at the next word. */
  function Walk(c: Setup, op: bv32, s: CpuState, i: nat, address: bv32, read32: bv32 -> bv32,
                readUsr: nat -> bv32, corrected: bool): (o: Outcome)
    requires Good(s) && i <= 16
    ensures Good(o.s)
    decreases 16 - i
  {
    if i == 16 then Outcome(s, [])
    else if InList(op, i) then
      var m := Move(c, s, i, address, read32, readUsr, corrected);
      Then(m.effects, Walk(c, op, m.s, i + 1, address + 4, read32, readUsr, corrected))
    else Walk(c, op, s, i + 1, address, read32, readUsr, corrected)
  }

  /** Lines 54-123: the walk, then writeback unless an LDM lists Rn. */
  function ListTransfer(c: Setup, op: bv32, s: CpuState, read32: bv32 -> bv32,
                        readUsr: nat -> bv32, corrected: bool): (o: Outcome)
    requires Good(s) && c.rn < 16
    ensures Good(o.s)
  {
    ListWriteBack(c, Walk(c, op, s, 0, c.start, read32, readUsr, corrected))
  }

  /** Lines 120-122: writeback, unless an LDM lists Rn. */
  function ListWriteBack(c: Setup, o: Outcome): (o': Outcome)
    requires Good(o.s) && c.rn < 16
    ensures Good(o'.s)
  {
    if c.writeBack && !(c.load && c.rnListed) then Outcome(WriteRegisterSpec(o.s, c.rn, c.finalBase), o.effects)
    else o
  }

  /** Lines 23-37: the offset of the one word an empty list transfers. */
  function EmptyOffset(pre: bool, up: bool): bv32 {
    if pre then (if up then 4 else 0xffff_ffc0) else (if up then 0 else 0xffff_ffc4)
  }

  /** Lines 23-37: the address of the one word an empty list transfers. */
  function EmptyAddressOf(pre: bool, up: bool, base: bv32): bv32 {
    base + EmptyOffset(pre, up)
  }

  /** Lines 39-45: an empty list moves R15 alone. */
  function EmptyAccess(c: Setup, s: CpuState, read32: bv32 -> bv32): (o: Outcome)
    requires Good(s)
    ensures Good(o.s)
  {
    var address := EmptyAddressOf(c.pre, c.up, c.base);
    if c.load then Outcome(JumpSpec(s, read32(address)), [])
    else Outcome(s, [BusWrite(address, s.banks.r[15] + 4)])
  }

  /** Lines 47-53: and writes back 0x40 bytes. */
  function EmptyWriteBack(c: Setup, o: Outcome): (o': Outcome)
    requires Good(o.s) && c.rn < 16
    ensures Good(o'.s)
  {
    if c.writeBack then Outcome(WriteRegisterSpec(o.s, c.rn, ArmRef.MultipleWriteBack(c.up, c.base, 0x40)), o.effects)
    else o
  }

  /** Lines 22-53. */
  function EmptyTransfer(c: Setup, s: CpuState, read32: bv32 -> bv32): (o: Outcome)
    requires Good(s) && c.rn < 16
    ensures Good(o.s)
  {
    EmptyWriteBack(c, EmptyAccess(c, s, read32))
  }

  /**
   * `cpuOpcodeArmLdmStm`: as written, or with `corrected` an LDM with S set
   * and R15 listed that loads its registers.
   */
  function Transfer(s: CpuState, op: bv32, read32: bv32 -> bv32, readUsr: nat -> bv32, corrected: bool): (o: Outcome)
    requires Good(s)
    ensures Good(o.s)
  {
    var c := SetupOf(s, op);
    if c.empty then EmptyTransfer(c, s, read32) else ListTransfer(c, op, s, read32, readUsr, corrected)
  }

  // ------------------------------------------------------------ the methods

  /** `cpuOpcodeArmLdmStm`. */
  method LdmStm(cpu: Cpu, op: bv32, read32: bv32 -> bv32, readUsr: nat -> bv32) returns (effects: seq<Effect>)
    requires cpu.Valid()
    modifies cpu.Registers()
    ensures cpu.Valid() && Outcome(cpu.State(), effects) == Transfer(old(cpu.State()), op, read32, readUsr, false)
  {
    var c := Prepare(cpu, op);
    if c.empty {
      effects := EmptyCase(cpu, c, read32);
    } else {
      effects := ListCase(cpu, c, op, read32, readUsr);
    }
  }

  /** Lines 11-20 and 55-68. */
  method Prepare(cpu: Cpu, op: bv32) returns (c: Setup)
    requires cpu.Valid()
    ensures c == SetupOf(cpu.State(), op)
  {
    var pre := Flag(op, 0x100_0000);
    var up := Flag(op, 0x80_0000);
    var writeBack := Flag(op, 0x20_0000);
    var load := Flag(op, 0x10_0000);
    var rn := Field4(op, 16);
    var empty := op & 0xffff == 0;
    var first := FirstRegisterInList(op, 16);
    var base := cpu.r[rn];
    var user := Flag(op, 0x40_0000);
    var pcListed := Flag(op, 0x8000);
    var count := CBitops.HammingWeight16(Lo16(op));
    var offset := FirstAddress(pre, up, base, Span(count));
    c := Setup(pre, up, writeBack, load, user, pcListed, rn, rn == first,
               Tests(op, 1 << ((op >> 16) & 0xf)), empty, count, base, offset,
               ArmRef.MultipleWriteBack(up, base, Span(count)));
  }

  /** Lines 60-68: the address of the first register, the start address of addressing mode 4. */
  method FirstAddress(pre: bool, up: bool, base: bv32, size: bv32) returns (offset: bv32)
    ensures offset == ArmRef.MultipleStart(pre, up, base, size)
  {
    offset := base;
    if up == pre {
      offset := offset + 4;
    }
    if !up {
      offset := Down(offset, size);
    }
    if !up && !pre {
      DownAfterUp(base, size, base + 4);
    }
  }

  /** `address - size`, the address `size` bytes down. */
  function Down(address: bv32, size: bv32): bv32 {
    address - size
  }

  lemma DownAfterUp(base: bv32, size: bv32, up4: bv32)
    requires up4 == base + 4
    ensures Down(up4, size) == base - size + 4
  {
  }

  /** Lines 22-53. */
  method EmptyCase(cpu: Cpu, c: Setup, read32: bv32 -> bv32) returns (effects: seq<Effect>)
    requires cpu.Valid() && c.rn < 16
    modifies cpu.Registers()
    ensures cpu.Valid() && Outcome(cpu.State(), effects) == EmptyTransfer(c, old(cpu.State()), read32)
  {
    effects := EmptyWord(cpu, c, read32);
    EmptyBaseUpdate(cpu, c, effects);
  }

  /** Lines 39-45. */
  method EmptyWord(cpu: Cpu, c: Setup, read32: bv32 -> bv32) returns (effects: seq<Effect>)
    requires cpu.Valid()
    modifies cpu.Registers()
    ensures cpu.Valid() && Outcome(cpu.State(), effects) == EmptyAccess(c, old(cpu.State()), read32)
  {
    var address := EmptyAddressOf(c.pre, c.up, c.base);
    if c.load {
      cpu.Jump(read32(address));
      effects := [];
    } else {
      effects := [BusWrite(address, cpu.r[15] + 4)];
    }
  }

  /** Lines 47-53. */
  method EmptyBaseUpdate(cpu: Cpu, c: Setup, ghost effects: seq<Effect>)
    requires cpu.Valid() && c.rn < 16
    modifies cpu.Registers()
    ensures cpu.Valid() && Outcome(cpu.State(), effects) == EmptyWriteBack(c, Outcome(old(cpu.State()), effects))
  {
    if c.writeBack {
      cpu.WriteRegister(c.rn, ArmRef.MultipleWriteBack(c.up, c.base, 0x40));
    }
  }

  /** Lines 54-123. */
  method ListCase(cpu: Cpu, c: Setup, op: bv32, read32: bv32 -> bv32, readUsr: nat -> bv32)
    returns (effects: seq<Effect>)
    requires cpu.Valid() && c.rn < 16
    modifies cpu.Registers()
    ensures cpu.Valid() && Outcome(cpu.State(), effects) == ListTransfer(c, op, old(cpu.State()), read32, readUsr, false)
  {
    effects := WalkList(cpu, c, op, read32, readUsr);
    ListBaseUpdate(cpu, c, effects);
  }

  /** Lines 70-118. */
  method WalkList(cpu: Cpu, c: Setup, op: bv32, read32: bv32 -> bv32, readUsr: nat -> bv32)
    returns (effects: seq<Effect>)
    requires cpu.Valid()
    modifies cpu.Registers()
    ensures cpu.Valid() && Outcome(cpu.State(), effects) == Walk(c, op, old(cpu.State()), 0, c.start, read32, readUsr, false)
  {
    ghost var s0 := cpu.State();
    var offset := c.start;
    var index: nat := 0;
    var mask: bv32 := 1;
    effects := [];
    while index < 16
      invariant cpu.Valid() && index <= 16 && mask == Mask(index)
      invariant Then(effects, Walk(c, op, cpu.State(), index, offset, read32, readUsr, false))
                == Walk(c, op, s0, 0, c.start, read32, readUsr, false)
    {
      effects, offset := WalkStep(cpu, c, op, index, mask, offset, effects, read32, readUsr);
      index := index + 1;
      mask := Double(mask);
    }
    assert effects + [] == effects;
  }

  /** Effects in sequence. */
  lemma ThenThen(a: seq<Effect>, b: seq<Effect>, o: Outcome)
    ensures Then(a + b, o) == Then(a, Then(b, o))
  {
    assert (a + b) + o.effects == a + (b + o.effects);
  }

  /** Lines 74-117: one pass of the loop. */
  method WalkStep(cpu: Cpu, c: Setup, op: bv32, index: nat, mask: bv32, offset: bv32, done: seq<Effect>,
                  read32: bv32 -> bv32, readUsr: nat -> bv32) returns (effects: seq<Effect>, next: bv32)
    requires cpu.Valid() && index < 16 && mask == Mask(index)
    modifies cpu.Registers()
    ensures cpu.Valid()
    ensures Then(effects, Walk(c, op, cpu.State(), index + 1, next, read32, readUsr, false))
            == Then(done, Walk(c, op, old(cpu.State()), index, offset, read32, readUsr, false))
  {
    if Tests(op, mask) {
      var e := MoveRegister(cpu, c, index, offset, read32, readUsr);
      ThenThen(done, e, Walk(c, op, cpu.State(), index + 1, offset + 4, read32, readUsr, false));
      effects := done + e;
      next := offset + 4;
    } else {
      effects := done;
      next := offset;
    }
  }

  /** Lines 120-122. */
  method ListBaseUpdate(cpu: Cpu, c: Setup, ghost effects: seq<Effect>)
    requires cpu.Valid() && c.rn < 16
    modifies cpu.Registers()
    ensures cpu.Valid() && Outcome(cpu.State(), effects) == ListWriteBack(c, Outcome(old(cpu.State()), effects))
  {
    if c.writeBack && !(c.load && c.rnListed) {
      cpu.WriteRegister(c.rn, c.finalBase);
    }
  }

  /** Lines 75-111: one listed register. */
  method MoveRegister(cpu: Cpu, c: Setup, i: nat, address: bv32, read32: bv32 -> bv32, readUsr: nat -> bv32)
    returns (effects: seq<Effect>)
    requires cpu.Valid() && i < 16
    modifies cpu.Registers()
    ensures cpu.Valid() && Outcome(cpu.State(), effects) == Move(c, old(cpu.State()), i, address, read32, readUsr, false)
  {
    if c.load {
      effects := LoadRegister(cpu, c, i, read32(address));
    } else {
      var value := StoredValue(cpu, c, i, readUsr);
      effects := [BusWrite(address, value)];
    }
  }

  /** Lines 76-86. */
  method LoadRegister(cpu: Cpu, c: Setup, i: nat, value: bv32) returns (effects: seq<Effect>)
    requires cpu.Valid() && i < 16
    modifies cpu.Registers()
    ensures cpu.Valid() && Outcome(cpu.State(), effects) == Load(c, old(cpu.State()), i, value, false)
  {
    effects := [];
    if !c.user {
      cpu.WriteRegister(i, value);
    } else if !c.pcListed {
      effects := [UserWrite(i, value)];
    } else if i == 15 {
      cpu.SetCpsr(cpu.Spsr());
    }
  }

  /** Lines 88-107. */
  method StoredValue(cpu: Cpu, c: Setup, i: nat, readUsr: nat -> bv32) returns (value: bv32)
    requires cpu.Valid() && i < 16
    ensures value == Stored(c, cpu.State(), i, readUsr)
  {
    if c.user {
      value := if i == 15 then cpu.r[15] + 4 else readUsr(i);
    } else if i == 15 {
      value := cpu.r[15] + 4;
    } else if i == c.rn && !c.rnFirst && c.writeBack {
      value := c.finalBase;
    } else {
      value := cpu.r[i];
    }
  }

  // ------------------------------------------------------------ properties

  /** What the transfer of register `k` at `address` leaves outside the CPU, when it changes nothing inside. */
  function EffectOf(c: Setup, s: CpuState, k: nat, address: bv32, read32: bv32 -> bv32,
                    readUsr: nat -> bv32): Effect
    requires Good(s) && k < 16
  {
    if c.load then UserWrite(k, read32(address)) else BusWrite(address, Stored(c, s, k, readUsr))
  }

  /** The transfers of `regs` in order, one word apart from `address` on. */
  function Effects(c: Setup, s: CpuState, regs: seq<nat>, address: bv32, read32: bv32 -> bv32,
                   readUsr: nat -> bv32): (e: seq<Effect>)
    requires Good(s) && forall j :: 0 <= j < |regs| ==> regs[j] < 16
    ensures |e| == |regs|
  {
    if regs == [] then []
    else [EffectOf(c, s, regs[0], address, read32, readUsr)] + Effects(c, s, regs[1..], address + 4, read32, readUsr)
  }

  /** The address of word `j` of a block that starts at `address`. */
  function Word(address: bv32, j: nat): bv32
    decreases j
  {
    if j == 0 then address else Word(address + 4, j - 1)
  }

  /** Transfer `j` of `Effects` is that of register `regs[j]` at word `j`. */
  lemma {:induction false} EffectsAt(c: Setup, s: CpuState, regs: seq<nat>, address: bv32, read32: bv32 -> bv32,
                                     readUsr: nat -> bv32, j: nat)
    requires Good(s) && forall j :: 0 <= j < |regs| ==> regs[j] < 16
    requires j < |regs|
    ensures Effects(c, s, regs, address, read32, readUsr)[j] == EffectOf(c, s, regs[j], Word(address, j), read32, readUsr)
  {
    if j > 0 {
      EffectsAt(c, s, regs[1..], address + 4, read32, readUsr, j - 1);
      assert regs[1..][j - 1] == regs[j];
    }
  }

  /**
   * An STM, and an LDM with S set and R15 not listed, changes no register:
   * it writes the listed registers to the bus, or to the user bank, lowest
   * first at ascending words.
   */
  lemma {:induction false} WalkMovesWords(c: Setup, op: bv32, s: CpuState, i: nat, address: bv32,
                                          read32: bv32 -> bv32, readUsr: nat -> bv32, corrected: bool)
    requires Good(s) && i <= 16
    requires !c.load || (c.user && !c.pcListed)
    ensures Walk(c, op, s, i, address, read32, readUsr, corrected)
            == Outcome(s, Effects(c, s, ListedFrom(op, i, 16), address, read32, readUsr))
    decreases 16 - i
  {
    if i < 16 {
      WalkMovesWords(c, op, s, i + 1, address + 4, read32, readUsr, corrected);
      WalkMovesWords(c, op, s, i + 1, address, read32, readUsr, corrected);
      var rest := ListedFrom(op, i + 1, 16);
      if InList(op, i) {
        assert ListedFrom(op, i, 16) == [i] + rest;
        assert ([i] + rest)[1..] == rest;
      } else {
        assert ListedFrom(op, i, 16) == rest;
      }
    }
  }

  /** The registers an LDM loads into the bank it runs in: r0-r14, but r0-r7 only when S restores the CPSR. */
  function LoadedBelow(c: Setup): nat {
    if c.user then 8 else 15
  }

  /**
   * One load of such an LDM: register `i` gets the word read and every
   * other register below `LoadedBelow` keeps its value.
   */
  lemma MoveLoads(c: Setup, s: CpuState, i: nat, address: bv32, read32: bv32 -> bv32,
                  readUsr: nat -> bv32, corrected: bool, k: nat)
    requires Good(s) && i < 16 && k < LoadedBelow(c)
    requires c.load && (!c.user || (c.pcListed && corrected))
    ensures var m := Move(c, s, i, address, read32, readUsr, corrected);
            m.effects == [] && m.s.banks.r[k] == if k == i then read32(address) else s.banks.r[k]
  {
    if i == 15 {
      if c.user {
        ChangeModeKeepsUnbanked(s.banks, s.psr.mode, SpsrOf(s) & 0x1f);
        JumpChangesOnlyPc(SetCpsrSpec(s, SpsrOf(s)), read32(address));
        assert SetCpsrSpec(s, SpsrOf(s)).banks.r[k] == SetCpsrSpec(s, SpsrOf(s)).banks.r[..8][k];
      } else {
        JumpChangesOnlyPc(s, read32(address));
        assert JumpSpec(s, read32(address)).banks.r[k] == JumpSpec(s, read32(address)).banks.r[..15][k];
      }
    }
  }

  /** Skipping a listed register `i` moves every later one to the next word. */
  lemma ListedWordStep(op: bv32, i: nat, k: nat, address: bv32)
    requires i < k <= 16 && InList(op, i)
    ensures Word(address, |ListedFrom(op, i, k)|) == Word(address + 4, |ListedFrom(op, i + 1, k)|)
  {
    assert ListedFrom(op, i, k) == [i] + ListedFrom(op, i + 1, k);
  }

  /**
   * An LDM with S clear, and, corrected, one with S set and R15 listed:
   * each listed register below `LoadedBelow` gets the word at its place in
   * the list and every other keeps its value.
   */
  lemma {:induction false} WalkLoads(c: Setup, op: bv32, s: CpuState, i: nat, address: bv32,
                                     read32: bv32 -> bv32, readUsr: nat -> bv32, corrected: bool, k: nat)
    requires Good(s) && i <= 16 && k < LoadedBelow(c)
    requires c.load && (!c.user || (c.pcListed && corrected))
    ensures Walk(c, op, s, i, address, read32, readUsr, corrected).s.banks.r[k]
            == if i <= k && InList(op, k) then read32(Word(address, |ListedFrom(op, i, k)|)) else s.banks.r[k]
    decreases 16 - i
  {
    if i < 16 {
      if InList(op, i) {
        var m := Move(c, s, i, address, read32, readUsr, corrected);
        MoveLoads(c, s, i, address, read32, readUsr, corrected, k);
        WalkLoads(c, op, m.s, i + 1, address + 4, read32, readUsr, corrected, k);
        if i < k {
          ListedWordStep(op, i, k, address);
        }
      } else {
        WalkLoads(c, op, s, i + 1, address, read32, readUsr, corrected, k);
        if i < k {
          assert ListedFrom(op, i, k) == ListedFrom(op, i + 1, k);
        }
      }
    }
  }

  /** Such an LDM transfers nothing outside the CPU. */
  lemma {:induction false} WalkLoadsQuietly(c: Setup, op: bv32, s: CpuState, i: nat, address: bv32,
                                            read32: bv32 -> bv32, readUsr: nat -> bv32, corrected: bool)
    requires Good(s) && i <= 16
    requires c.load && (!c.user || (c.pcListed && corrected))
    ensures Walk(c, op, s, i, address, read32, readUsr, corrected).effects == []
    decreases 16 - i
  {
    if i < 16 {
      if InList(op, i) {
        var m := Move(c, s, i, address, read32, readUsr, corrected);
        MoveLoads(c, s, i, address, read32, readUsr, corrected, 0);
        WalkLoadsQuietly(c, op, m.s, i + 1, address + 4, read32, readUsr, corrected);
      } else {
        WalkLoadsQuietly(c, op, s, i + 1, address, read32, readUsr, corrected);
      }
    }
  }

  /** One load of such an LDM changes the CPSR only at R15 with S set, where it restores the SPSR. */
  lemma MovePsr(c: Setup, s: CpuState, i: nat, address: bv32, read32: bv32 -> bv32,
                readUsr: nat -> bv32, corrected: bool)
    requires Good(s) && i < 16
    requires c.load && (!c.user || (c.pcListed && corrected))
    ensures var m := Move(c, s, i, address, read32, readUsr, corrected);
            m.s.psr == (if c.user && i == 15 then UnpackCpsr(SpsrOf(s)) else s.psr) && m.s.spsr == s.spsr
  {
  }

  /** An LDM with S clear keeps the CPSR. */
  lemma {:induction false} WalkKeepsPsr(c: Setup, op: bv32, s: CpuState, i: nat, address: bv32,
                                        read32: bv32 -> bv32, readUsr: nat -> bv32, corrected: bool)
    requires Good(s) && i <= 16
    requires c.load && !c.user
    ensures Walk(c, op, s, i, address, read32, readUsr, corrected).s.psr == s.psr
    decreases 16 - i
  {
    if i < 16 {
      if InList(op, i) {
        var m := Move(c, s, i, address, read32, readUsr, corrected);
        MovePsr(c, s, i, address, read32, readUsr, corrected);
        WalkKeepsPsr(c, op, m.s, i + 1, address + 4, read32, readUsr, corrected);
      } else {
        WalkKeepsPsr(c, op, s, i + 1, address, read32, readUsr, corrected);
      }
    }
  }

  /** Corrected, an LDM with S set and R15 listed leaves the SPSR of the mode it ran in in the CPSR. */
  lemma {:induction false} WalkRestoresPsr(c: Setup, op: bv32, s: CpuState, i: nat, address: bv32,
                                           read32: bv32 -> bv32, readUsr: nat -> bv32)
    requires Good(s) && i <= 15 && InList(op, 15)
    requires c.load && c.user && c.pcListed
    ensures Walk(c, op, s, i, address, read32, readUsr, true).s.psr == UnpackCpsr(SpsrOf(s))
    decreases 16 - i
  {
    var m := Move(c, s, i, address, read32, readUsr, true);
    MovePsr(c, s, i, address, read32, readUsr, true);
    if i < 15 {
      if InList(op, i) {
        WalkRestoresPsr(c, op, m.s, i + 1, address + 4, read32, readUsr);
        assert SpsrOf(m.s) == SpsrOf(s);
      } else {
        WalkRestoresPsr(c, op, s, i + 1, address, read32, readUsr);
      }
    }
  }

  /**
   * As written, an LDM with S set and R15 listed loads no register: it
   * transfers nothing, and when it reaches R15 it only copies the SPSR to
   * the CPSR, whatever the words on the bus hold.
   */
  lemma {:induction false} WalkSkipsLoads(c: Setup, op: bv32, s: CpuState, i: nat, address: bv32,
                                          read32: bv32 -> bv32, readUsr: nat -> bv32)
    requires Good(s) && i <= 16
    requires c.load && c.user && c.pcListed
    ensures Walk(c, op, s, i, address, read32, readUsr, false)
            == Outcome(if i <= 15 && InList(op, 15) then SetCpsrSpec(s, SpsrOf(s)) else s, [])
    decreases 16 - i
  {
    if i < 16 {
      if InList(op, i) {
        var m := Move(c, s, i, address, read32, readUsr, false);
        WalkSkipsLoads(c, op, m.s, i + 1, address + 4, read32, readUsr);
      } else {
        WalkSkipsLoads(c, op, s, i + 1, address, read32, readUsr);
      }
    }
  }

  // ------------------------------------------------------ whole transfers

  /** Bit 15 of the opcode is R15's place in the list. */
  lemma PcListed(s: CpuState, op: bv32)
    requires Good(s)
    ensures SetupOf(s, op).pcListed <==> InList(op, 15)
  {
    MaskIsShift(15, 15);
  }

  /** Line 120 tests Rn's place in the list. */
  lemma RnListed(s: CpuState, op: bv32)
    requires Good(s)
    ensures SetupOf(s, op).rnListed <==> InList(op, SetupOf(s, op).rn)
  {
    MaskIsShift(Field4(op, 16), (op >> 16) & 0xf);
  }

  /** `hammingWeight16` counts the listed registers, and the list is empty exactly when none is listed. */
  lemma CountIsListed(s: CpuState, op: bv32)
    requires Good(s)
    ensures SetupOf(s, op).count == |Listed(op, 16)|
    ensures SetupOf(s, op).empty <==> Listed(op, 16) == []
  {
    ListedCount(op);
    EmptyList(op);
  }

  /**
   * An STM, or an LDM with S set and R15 not listed, of a non-empty list:
   * listed register `j` in ascending order goes to word `j` from the start
   * address of addressing mode 4 (from a register to the bus, or from the
   * bus to the user bank), and the only register that changes is the base,
   * moved past the block when W is set, unless an LDM lists it.
   */
  lemma MovesListed(s: CpuState, op: bv32, read32: bv32 -> bv32, readUsr: nat -> bv32, corrected: bool)
    requires Good(s) && op & 0xffff != 0
    requires !Flag(op, 0x10_0000) || (Flag(op, 0x40_0000) && !Flag(op, 0x8000))
    ensures var c := SetupOf(s, op);
            var regs := Listed(op, 16);
            var start := ArmRef.MultipleStart(c.pre, c.up, s.banks.r[c.rn], Span(c.count));
            var o := Transfer(s, op, read32, readUsr, corrected);
            |o.effects| == |regs| == c.count &&
            (forall j :: 0 <= j < |regs| ==> o.effects[j] == EffectOf(c, s, regs[j], Word(start, j), read32, readUsr)) &&
            o.s == if c.writeBack && !(c.load && c.rnListed)
                   then WriteRegisterSpec(s, c.rn, ArmRef.MultipleWriteBack(c.up, s.banks.r[c.rn], Span(c.count)))
                   else s
  {
    var c := SetupOf(s, op);
    var regs := Listed(op, 16);
    CountIsListed(s, op);
    EmptyList(op);
    WalkMovesWords(c, op, s, 0, c.start, read32, readUsr, corrected);
    forall j | 0 <= j < |regs|
      ensures Effects(c, s, regs, c.start, read32, readUsr)[j] == EffectOf(c, s, regs[j], Word(c.start, j), read32, readUsr)
    {
      EffectsAt(c, s, regs, c.start, read32, readUsr, j);
    }
  }

  /**
   * An LDM with S clear of a non-empty list: each listed register below R15
   * gets the word at its place in the list from the start address of
   * addressing mode 4; the base, when it is not listed and W is set, moves
   * past the block; the other registers keep their values.
   */
  lemma LoadsListed(s: CpuState, op: bv32, read32: bv32 -> bv32, readUsr: nat -> bv32, corrected: bool, k: nat)
    requires Good(s) && op & 0xffff != 0 && Flag(op, 0x10_0000) && !Flag(op, 0x40_0000) && k < 15
    ensures var c := SetupOf(s, op);
            Transfer(s, op, read32, readUsr, corrected).s.banks.r[k]
            == if InList(op, k) then read32(Word(c.start, |ListedFrom(op, 0, k)|))
               else if k == c.rn && c.writeBack then c.finalBase
               else s.banks.r[k]
  {
    var c := SetupOf(s, op);
    EmptyList(op);
    RnListed(s, op);
    WalkLoads(c, op, s, 0, c.start, read32, readUsr, corrected, k);
    var w := Walk(c, op, s, 0, c.start, read32, readUsr, corrected);
    ListWriteBackAt(c, w, k);
    assert Transfer(s, op, read32, readUsr, corrected) == ListWriteBack(c, w);
  }

  /** Such an LDM writes nothing and keeps the CPSR. */
  lemma LoadsKeepPsr(s: CpuState, op: bv32, read32: bv32 -> bv32, readUsr: nat -> bv32, corrected: bool)
    requires Good(s) && op & 0xffff != 0 && Flag(op, 0x10_0000) && !Flag(op, 0x40_0000)
    ensures Transfer(s, op, read32, readUsr, corrected).effects == []
    ensures Transfer(s, op, read32, readUsr, corrected).s.psr == s.psr
  {
    var c := SetupOf(s, op);
    EmptyList(op);
    WalkLoadsQuietly(c, op, s, 0, c.start, read32, readUsr, corrected);
    WalkKeepsPsr(c, op, s, 0, c.start, read32, readUsr, corrected);
    var w := Walk(c, op, s, 0, c.start, read32, readUsr, corrected);
    ListWriteBackAt(c, w, 0);
    assert Transfer(s, op, read32, readUsr, corrected) == ListWriteBack(c, w);
  }

  /** Writeback below R15 changes the base alone, and never the CPSR or the effects. */
  lemma ListWriteBackAt(c: Setup, o: Outcome, k: nat)
    requires Good(o.s) && c.rn < 16 && k < 15
    ensures ListWriteBack(c, o).effects == o.effects && ListWriteBack(c, o).s.psr == o.s.psr
    ensures ListWriteBack(c, o).s.banks.r[k]
            == if c.writeBack && !(c.load && c.rnListed) && k == c.rn then c.finalBase else o.s.banks.r[k]
  {
    WriteRegisterAt(o.s, c.rn, c.finalBase, k);
  }

  /**
   * As written, an LDM with S set and R15 listed loads no register, whatever
   * the bus holds: it only copies the SPSR to the CPSR, and writes back.
   */
  lemma UserPcLoadAsWritten(s: CpuState, op: bv32, read32: bv32 -> bv32, readUsr: nat -> bv32)
    requires Good(s) && Flag(op, 0x10_0000) && Flag(op, 0x40_0000) && Flag(op, 0x8000)
    ensures Transfer(s, op, read32, readUsr, false)
            == ListWriteBack(SetupOf(s, op), Outcome(SetCpsrSpec(s, SpsrOf(s)), []))
  {
    var c := SetupOf(s, op);
    PcListed(s, op);
    WalkSkipsLoads(c, op, s, 0, c.start, read32, readUsr);
  }

  /**
   * Corrected, the same LDM loads each listed register of r0-r7 from its
   * place in the list, and writes back as the LDM with S clear does.
   */
  lemma UserPcLoadIntended(s: CpuState, op: bv32, read32: bv32 -> bv32, readUsr: nat -> bv32, k: nat)
    requires Good(s) && Flag(op, 0x10_0000) && Flag(op, 0x40_0000) && Flag(op, 0x8000) && k < 8
    ensures var c := SetupOf(s, op);
            Transfer(s, op, read32, readUsr, true).s.banks.r[k]
            == if InList(op, k) then read32(Word(c.start, |ListedFrom(op, 0, k)|))
               else if k == c.rn && c.writeBack then c.finalBase
               else s.banks.r[k]
  {
    var c := SetupOf(s, op);
    PcListed(s, op);
    RnListed(s, op);
    WalkLoads(c, op, s, 0, c.start, read32, readUsr, true, k);
    var w := Walk(c, op, s, 0, c.start, read32, readUsr, true);
    ListWriteBackAt(c, w, k);
    assert Transfer(s, op, read32, readUsr, true) == ListWriteBack(c, w);
  }

  /** Corrected, it writes nothing and leaves the SPSR of the mode it ran in in the CPSR. */
  lemma UserPcLoadRestoresPsr(s: CpuState, op: bv32, read32: bv32 -> bv32, readUsr: nat -> bv32)
    requires Good(s) && Flag(op, 0x10_0000) && Flag(op, 0x40_0000) && Flag(op, 0x8000)
    ensures Transfer(s, op, read32, readUsr, true).effects == []
    ensures Transfer(s, op, read32, readUsr, true).s.psr == UnpackCpsr(SpsrOf(s))
  {
    var c := SetupOf(s, op);
    PcListed(s, op);
    WalkLoadsQuietly(c, op, s, 0, c.start, read32, readUsr, true);
    WalkRestoresPsr(c, op, s, 0, c.start, read32, readUsr);
    var w := Walk(c, op, s, 0, c.start, read32, readUsr, true);
    ListWriteBackAt(c, w, 0);
    assert Transfer(s, op, read32, readUsr, true) == ListWriteBack(c, w);
  }

  /**
   * LDMIA r0, {r0, pc}^ as written leaves r0 as it was; corrected, r0 gets
   * the word at r0.
   */
  lemma UserPcLoadCounterexample(s: CpuState, read32: bv32 -> bv32, readUsr: nat -> bv32)
    requires Good(s)
    ensures Transfer(s, 0xe8d0_8001, read32, readUsr, false).s.banks.r[0] == s.banks.r[0]
    ensures Transfer(s, 0xe8d0_8001, read32, readUsr, true).s.banks.r[0] == read32(s.banks.r[0])
  {
    var op: bv32 := 0xe8d0_8001;
    UserPcLoadAsWritten(s, op, read32, readUsr);
    ChangeModeKeepsUnbanked(s.banks, s.psr.mode, SpsrOf(s) & 0x1f);
    assert SetCpsrSpec(s, SpsrOf(s)).banks.r[0] == SetCpsrSpec(s, SpsrOf(s)).banks.r[..8][0];
    UserPcLoadIntended(s, op, read32, readUsr, 0);
    assert InList(op, 0);
  }

  /** Line 120 tests Rn; with an empty list the word moved is the one a full list of 16 starts with. */
  lemma EmptyAddress(pre: bool, up: bool, base: bv32)
    ensures EmptyAddressOf(pre, up, base) == ArmRef.MultipleStart(pre, up, base, 0x40)
  {
    var offset := EmptyOffset(pre, up);
    assert EmptyAddressOf(pre, up, base) == base + offset;
    if !up {
      assert offset == if pre then 0 - 0x40 else 0 - 0x40 + 4;
    }
  }

  /** The empty-list transfer of a decoded instruction. */
  lemma EmptyMoves(c: Setup, s: CpuState, read32: bv32 -> bv32)
    requires Good(s) && c.rn < 16
    ensures var address := ArmRef.MultipleStart(c.pre, c.up, c.base, 0x40);
            var moved := if c.load then Outcome(JumpSpec(s, read32(address)), [])
                         else Outcome(s, [BusWrite(address, s.banks.r[15] + 4)]);
            EmptyTransfer(c, s, read32) == if c.writeBack
              then Outcome(WriteRegisterSpec(moved.s, c.rn, ArmRef.MultipleWriteBack(c.up, c.base, 0x40)), moved.effects)
              else moved
  {
    var address := ArmRef.MultipleStart(c.pre, c.up, c.base, 0x40);
    EmptyAddress(c.pre, c.up, c.base);
    var moved := EmptyAccess(c, s, read32);
    assert EmptyTransfer(c, s, read32) == EmptyWriteBack(c, moved);
    if c.load {
      assert moved == Outcome(JumpSpec(s, read32(address)), []);
    } else {
      assert moved == Outcome(s, [BusWrite(address, s.banks.r[15] + 4)]);
    }
  }

  /**
   * An empty list moves R15 alone, at the first address of a 16-register
   * block, and writes back 0x40 bytes when W is set.
   */
  lemma EmptyMovesPc(s: CpuState, op: bv32, read32: bv32 -> bv32, readUsr: nat -> bv32, corrected: bool)
    requires Good(s) && op & 0xffff == 0
    ensures var c := SetupOf(s, op);
            var base := s.banks.r[c.rn];
            var address := ArmRef.MultipleStart(c.pre, c.up, base, 0x40);
            var o := Transfer(s, op, read32, readUsr, corrected);
            var moved := if c.load then Outcome(JumpSpec(s, read32(address)), [])
                         else Outcome(s, [BusWrite(address, s.banks.r[15] + 4)]);
            o == if c.writeBack
                 then Outcome(WriteRegisterSpec(moved.s, c.rn, ArmRef.MultipleWriteBack(c.up, base, 0x40)), moved.effects)
                 else moved
  {
    var c := SetupOf(s, op);
    assert c.empty && c.base == s.banks.r[c.rn];
    EmptyMoves(c, s, read32);
  }
}
