// src/core/cpu/cpu.c: the register file and pipeline of the C core's
// ARM7TDMI. The C globals (the sixteen visible registers, the seven- and
// two-register banks, the five SPSRs, the flags, the mode, the pipeline
// state and the fetched and decoded opcodes) are the fields of the class
// Cpu; `g_cpuShifterCarry`, which the instruction handlers share with the
// shifter, is a field as well.
//
// Every state-changing routine is a method whose new state is a function of
// the old one (CpuState), so that the instruction handlers of the other C
// modules, which call these methods, can be specified the same way.
//
// The bus is passed to the fetch stage as the two read functions it calls.
// The call of the decoded handler at the start of `coreStep` is described
// (Pending) rather than made, and the rest of the step is EndStep: the
// handlers are the methods of the instruction modules.

module CCpu {
  import opened Bits
  import ArmRef
  import CDecoder

  // `enum te_cpuMode` of include/core/cpu/cpu.h.
  const OLD_USR: bv32 := 0x00
  const OLD_FIQ: bv32 := 0x01
  const OLD_IRQ: bv32 := 0x02
  const OLD_SVC: bv32 := 0x03
  const USR: bv32 := 0x10
  const FIQ: bv32 := 0x11
  const IRQ: bv32 := 0x12
  const SVC: bv32 := 0x13
  const ABT: bv32 := 0x17
  const UND: bv32 := 0x1b
  const SYS: bv32 := 0x1f

  // Exception vectors.
  const VECTOR_UND: bv32 := 0x04
  const VECTOR_SWI: bv32 := 0x08
  const VECTOR_IRQ: bv32 := 0x18

  /** The modes the switches of `cpuChangeMode` name. */
  predicate IsDefinedMode(m: bv32) {
    UsesUserBank(m) || UsesFiqBank(m) || HasShortBank(m)
  }

  /** Modes whose r8-r14 live in the user bank. */
  predicate UsesUserBank(m: bv32) { m == OLD_USR || m == USR || m == SYS }

  /** Modes whose r8-r14 live in the FIQ bank. */
  predicate UsesFiqBank(m: bv32) { m == OLD_FIQ || m == FIQ }

  /** Modes with r8-r12 from the user bank and their own r13, r14. */
  predicate HasShortBank(m: bv32) {
    IsIrqMode(m) || IsSvcMode(m) || m == ABT || m == UND
  }

  predicate IsIrqMode(m: bv32) { m == OLD_IRQ || m == IRQ }
  predicate IsSvcMode(m: bv32) { m == OLD_SVC || m == SVC }

  // ---------------------------------------------------------------- CPSR

  datatype Psr = Psr(n: bool, z: bool, c: bool, v: bool, i: bool, f: bool, t: bool, mode: bv32)

  /** The word with only `mask` set when `b` holds (a flag's place in the CPSR). */
  function Place(b: bool, mask: bv32): bv32 { if b then mask else 0 }

  /** The flag `mask` selects, as `(value & mask) != 0`. */
  predicate Flag(value: bv32, mask: bv32) { value & mask != 0 }

  /** `cpuGetCpsr`: N, Z, C, V at bits 31..28, I, F, T at bits 7..5, ORed with the mode. */
  function PackCpsr(p: Psr): bv32 {
    Place(p.n, 0x8000_0000) | Place(p.z, 0x4000_0000) | Place(p.c, 0x2000_0000) |
    Place(p.v, 0x1000_0000) | Place(p.i, 0x80) | Place(p.f, 0x40) | Place(p.t, 0x20) | p.mode
  }

  /** The flags `cpuSetCpsr` assigns and the mode `cpuChangeMode` then stores (bits 4..0). */
  function UnpackCpsr(value: bv32): Psr {
    Psr(Flag(value, 0x8000_0000), Flag(value, 0x4000_0000), Flag(value, 0x2000_0000),
        Flag(value, 0x1000_0000), Flag(value, 0x80), Flag(value, 0x40), Flag(value, 0x20),
        value & 0x1f)
  }

  /** Setting the CPSR and reading it back keeps bits 31..28 and 7..0 and clears the rest. */
  lemma SetThenGetCpsr(value: bv32)
    ensures PackCpsr(UnpackCpsr(value)) == value & 0xf000_00ff
  {
    var w := PackCpsr(UnpackCpsr(value));
    KeepsConditionFlags(value);
    KeepsControlFlags(value);
    KeepsMode(value);
    ClearsReserved(value);
    Assemble(w, value);
  }

  lemma KeepsConditionFlags(value: bv32)
    ensures PackCpsr(UnpackCpsr(value)) & 0xf000_0000 == value & 0xf000_0000
  {
  }

  lemma KeepsControlFlags(value: bv32)
    ensures PackCpsr(UnpackCpsr(value)) & 0xe0 == value & 0xe0
  {
  }

  lemma KeepsMode(value: bv32)
    ensures PackCpsr(UnpackCpsr(value)) & 0x1f == value & 0x1f
  {
  }

  lemma ClearsReserved(value: bv32)
    ensures PackCpsr(UnpackCpsr(value)) & 0x0fff_ff00 == 0
  {
  }

  lemma Assemble(w: bv32, value: bv32)
    requires w & 0xf000_0000 == value & 0xf000_0000 && w & 0xe0 == value & 0xe0
    requires w & 0x1f == value & 0x1f && w & 0x0fff_ff00 == 0
    ensures w == value & 0xf000_00ff
  {
  }

  /** Reading the CPSR and setting it again restores every field (the mode is a 5-bit value). */
  lemma GetThenSetCpsr(p: Psr)
    requires p.mode < 32
    ensures UnpackCpsr(PackCpsr(p)) == p
  {
    PackedFlags(p);
    PackedMode(p);
  }

  lemma PackedFlags(p: Psr)
    requires p.mode < 32
    ensures Flag(PackCpsr(p), 0x8000_0000) == p.n && Flag(PackCpsr(p), 0x4000_0000) == p.z
    ensures Flag(PackCpsr(p), 0x2000_0000) == p.c && Flag(PackCpsr(p), 0x1000_0000) == p.v
    ensures Flag(PackCpsr(p), 0x80) == p.i && Flag(PackCpsr(p), 0x40) == p.f && Flag(PackCpsr(p), 0x20) == p.t
  {
  }

  lemma PackedMode(p: Psr)
    requires p.mode < 32
    ensures PackCpsr(p) & 0x1f == p.mode
  {
  }

  function FlagsOf(p: Psr): ArmRef.Flags {
    ArmRef.Flags(p.n, p.z, p.c, p.v)
  }

  /** `cpuCheckCondition`; the C switch's default case answers false. */
  function CheckCondition(cond: bv32, p: Psr): (passed: bool)
    ensures cond < 16 ==> passed == ArmRef.ConditionPassed(cond, FlagsOf(p))
    ensures cond >= 16 ==> !passed
  {
    if cond == 0x0 then p.z
    else if cond == 0x1 then !p.z
    else if cond == 0x2 then p.c
    else if cond == 0x3 then !p.c
    else if cond == 0x4 then p.n
    else if cond == 0x5 then !p.n
    else if cond == 0x6 then p.v
    else if cond == 0x7 then !p.v
    else if cond == 0x8 then p.c && !p.z
    else if cond == 0x9 then !p.c || p.z
    else if cond == 0xa then p.n == p.v
    else if cond == 0xb then p.n != p.v
    else if cond == 0xc then !p.z && p.n == p.v
    else if cond == 0xd then p.z || p.n != p.v
    else cond == 0xe
  }

  // ---------------------------------------------------- banked registers

  /** Contents of the seven register arrays. */
  datatype Banked = Banked(r: seq<bv32>, usr: seq<bv32>, fiq: seq<bv32>,
                           irq: seq<bv32>, svc: seq<bv32>, abt: seq<bv32>, und: seq<bv32>)

  predicate WellFormed(b: Banked) {
    |b.r| == 16 && |b.usr| == 7 && |b.fiq| == 7 &&
    |b.irq| == 2 && |b.svc| == 2 && |b.abt| == 2 && |b.und| == 2
  }

  /** The two-register bank of a mode that has one. */
  function ShortBank(b: Banked, m: bv32): seq<bv32>
    requires HasShortBank(m)
  {
    if IsIrqMode(m) then b.irq
    else if IsSvcMode(m) then b.svc
    else if m == ABT then b.abt
    else b.und
  }

  /** `b` with the two-register bank of mode `m` replaced. */
  function WithShortBank(b: Banked, m: bv32, pair: seq<bv32>): (b': Banked)
    requires HasShortBank(m)
  {
    if IsIrqMode(m) then b.(irq := pair)
    else if IsSvcMode(m) then b.(svc := pair)
    else if m == ABT then b.(abt := pair)
    else b.(und := pair)
  }

  /**
   * First switch of `cpuChangeMode`, as written: the outgoing mode's
   * r8-r14 are saved, except that leaving IRQ stores r13 and then r14 into
   * the first IRQ register, so r14 ends there and the second one keeps its
   * old value.
   */
  function SaveBankAsWritten(b: Banked, oldMode: bv32): (b': Banked)
    requires WellFormed(b)
    ensures WellFormed(b')
  {
    if UsesUserBank(oldMode) then b.(usr := b.r[8..15])
    else if UsesFiqBank(oldMode) then b.(fiq := b.r[8..15])
    else if IsIrqMode(oldMode) then b.(usr := b.r[8..13] + b.usr[5..], irq := [b.r[14], b.irq[1]])
    else if HasShortBank(oldMode) then WithShortBank(b.(usr := b.r[8..13] + b.usr[5..]), oldMode, b.r[13..15])
    else b
  }

  /** The save as intended: every mode with a two-register bank keeps r13 and r14 there. */
  function SaveBank(b: Banked, oldMode: bv32): (b': Banked)
    requires WellFormed(b)
    ensures WellFormed(b')
  {
    if UsesUserBank(oldMode) then b.(usr := b.r[8..15])
    else if UsesFiqBank(oldMode) then b.(fiq := b.r[8..15])
    else if HasShortBank(oldMode) then WithShortBank(b.(usr := b.r[8..13] + b.usr[5..]), oldMode, b.r[13..15])
    else b
  }

  /** Second switch of `cpuChangeMode`: the incoming mode's r8-r14 are loaded. */
  function LoadBank(b: Banked, newMode: bv32): (b': Banked)
    requires WellFormed(b)
    ensures WellFormed(b')
  {
    if UsesUserBank(newMode) then b.(r := b.r[..8] + b.usr + b.r[15..])
    else if UsesFiqBank(newMode) then b.(r := b.r[..8] + b.fiq + b.r[15..])
    else if HasShortBank(newMode) then b.(r := b.r[..8] + b.usr[..5] + ShortBank(b, newMode) + b.r[15..])
    else b
  }

  /** `cpuChangeMode` on the banks, as written. */
  function ChangeModeAsWritten(b: Banked, oldMode: bv32, newMode: bv32): (b': Banked)
    requires WellFormed(b)
    ensures WellFormed(b')
  {
    LoadBank(SaveBankAsWritten(b, oldMode), newMode)
  }

  /** `cpuChangeMode` with the IRQ save corrected. */
  function ChangeMode(b: Banked, oldMode: bv32, newMode: bv32): (b': Banked)
    requires WellFormed(b)
    ensures WellFormed(b')
  {
    LoadBank(SaveBank(b, oldMode), newMode)
  }

  /** The seven registers r8-r14 that loading mode `m` takes from the banks. */
  function BankOf(b: Banked, m: bv32): seq<bv32>
    requires WellFormed(b) && IsDefinedMode(m)
  {
    if UsesUserBank(m) then b.usr
    else if UsesFiqBank(m) then b.fiq
    else b.usr[..5] + ShortBank(b, m)
  }

  /** Loading a mode replaces r8-r14 by its bank and changes no bank; an undefined mode changes nothing. */
  lemma LoadShape(b: Banked, m: bv32)
    requires WellFormed(b)
    ensures IsDefinedMode(m) ==> LoadBank(b, m) == b.(r := b.r[..8] + BankOf(b, m) + b.r[15..])
    ensures !IsDefinedMode(m) ==> LoadBank(b, m) == b
  {
  }

  /** Saving a mode leaves r0-r15 alone and puts r8-r14 where loading the same mode finds them. */
  lemma SaveShape(b: Banked, m: bv32)
    requires WellFormed(b) && IsDefinedMode(m)
    ensures SaveBank(b, m).r == b.r
    ensures WellFormed(SaveBank(b, m)) && BankOf(SaveBank(b, m), m) == b.r[8..15]
  {
    if HasShortBank(m) && !UsesUserBank(m) && !UsesFiqBank(m) {
      var s := SaveBank(b, m);
      assert s.usr[..5] == b.r[8..13];
    }
  }

  /** Saving right after loading the same mode writes back what was just loaded. */
  lemma LoadThenSave(b: Banked, n: bv32)
    requires WellFormed(b)
    ensures SaveBank(LoadBank(b, n), n) == LoadBank(b, n)
  {
    var c := LoadBank(b, n);
    if UsesUserBank(n) {
      assert c.r[8..15] == b.usr;
    } else if UsesFiqBank(n) {
      assert c.r[8..15] == b.fiq;
    } else if HasShortBank(n) {
      assert c.r[8..13] == b.usr[..5];
      assert c.r[8..13] + c.usr[5..] == c.usr;
      assert c.r[13..15] == ShortBank(b, n);
    }
  }

  /** Both saves are the same except when leaving IRQ, where only the IRQ bank differs. */
  lemma SavesAgree(b: Banked, m: bv32)
    requires WellFormed(b)
    ensures !IsIrqMode(m) ==> SaveBankAsWritten(b, m) == SaveBank(b, m)
    ensures IsIrqMode(m) ==> SaveBankAsWritten(b, m) == SaveBank(b, m).(irq := [b.r[14], b.irq[1]])
  {
  }

  /** Loading a mode other than IRQ reads nothing of the IRQ bank. */
  lemma BankOfIgnoresIrq(b: Banked, m: bv32, pair: seq<bv32>)
    requires WellFormed(b) && IsDefinedMode(m) && !IsIrqMode(m) && |pair| == 2
    ensures BankOf(b.(irq := pair), m) == BankOf(b, m)
  {
  }

  /** r0-r7 and r15 never move on a mode change. */
  lemma ChangeModeKeepsUnbanked(b: Banked, oldMode: bv32, newMode: bv32)
    requires WellFormed(b)
    ensures var r' := ChangeMode(b, oldMode, newMode).r;
            r'[..8] == b.r[..8] && r'[15] == b.r[15]
    ensures var r' := ChangeModeAsWritten(b, oldMode, newMode).r;
            r'[..8] == b.r[..8] && r'[15] == b.r[15]
  {
    SavesAgree(b, oldMode);
    var s := SaveBank(b, oldMode);
    if IsDefinedMode(oldMode) {
      SaveShape(b, oldMode);
    } else {
      assert s == b;
    }
    LoadShape(s, newMode);
    if IsIrqMode(oldMode) {
      LoadShape(SaveBankAsWritten(b, oldMode), newMode);
    }
  }

  /**
   * With the corrected save, leaving a mode for any other and coming back
   * restores all sixteen visible registers.
   */
  lemma ChangeModeRoundTrip(b: Banked, m: bv32, n: bv32)
    requires WellFormed(b) && IsDefinedMode(m)
    ensures ChangeMode(ChangeMode(b, m, n), n, m).r == b.r
  {
    var s := SaveBank(b, m);
    SaveShape(b, m);
    var c := LoadBank(s, n);
    LoadShape(s, n);
    LoadThenSave(s, n);
    ChangeModeKeepsUnbanked(b, m, n);
    assert BankOf(c, m) == BankOf(s, m);
    Rebuilt(b, c, m);
  }

  /** As written the round trip also holds, unless it starts in IRQ mode. */
  lemma ChangeModeAsWrittenRoundTrip(b: Banked, m: bv32, n: bv32)
    requires WellFormed(b) && IsDefinedMode(m) && !IsIrqMode(m)
    ensures ChangeModeAsWritten(ChangeModeAsWritten(b, m, n), n, m).r == b.r
  {
    SavesAgree(b, m);
    var s := SaveBank(b, m);
    SaveShape(b, m);
    var c := LoadBank(s, n);
    ChangeModeKeepsUnbanked(b, m, n);
    SaveAfterLoadAsWritten(s, n, m);
    var s2 := SaveBankAsWritten(c, n);
    Rebuilt(b, s2, m);
  }

  /** Loading mode `m` from banks that keep r0-r7, r15 and hold `m`'s registers gives the original registers. */
  lemma Rebuilt(b: Banked, c: Banked, m: bv32)
    requires WellFormed(b) && WellFormed(c) && IsDefinedMode(m)
    requires c.r[..8] == b.r[..8] && c.r[15] == b.r[15] && BankOf(c, m) == b.r[8..15]
    ensures LoadBank(c, m).r == b.r
  {
    LoadShape(c, m);
    assert b.r == b.r[..8] + b.r[8..15] + b.r[15..];
  }

  /** Whatever the as-written save of `n` does to the IRQ bank, a mode other than IRQ finds its registers again. */
  lemma SaveAfterLoadAsWritten(s: Banked, n: bv32, m: bv32)
    requires WellFormed(s) && IsDefinedMode(m) && !IsIrqMode(m)
    ensures var c := LoadBank(s, n);
            SaveBankAsWritten(c, n).r == c.r && BankOf(SaveBankAsWritten(c, n), m) == BankOf(s, m)
  {
    var c := LoadBank(s, n);
    LoadShape(s, n);
    LoadThenSave(s, n);
    SavesAgree(c, n);
    if IsIrqMode(n) {
      BankOfIgnoresIrq(c, m, [c.r[14], c.irq[1]]);
    }
  }

  /**
   * Leaving IRQ for SVC and returning: r13 comes back as the old r14 and
   * r14 as whatever the second IRQ register held.
   */
  lemma IrqRoundTripCounterexample(b: Banked)
    requires WellFormed(b) && b.r[13] == 1 && b.r[14] == 2 && b.irq[1] == 3
    ensures var back := ChangeModeAsWritten(ChangeModeAsWritten(b, IRQ, SVC), SVC, IRQ).r;
            back[13] == 2 && back[14] == 3
  {
  }

  // ------------------------------------------------------------- the state

  datatype PipelineState = FlushState | FetchState | DecodeState | ExecuteState

  /** The value of `te_cpuPipelineState`, which the stages compare against. */
  function Rank(p: PipelineState): nat {
    match p
    case FlushState => 0
    case FetchState => 1
    case DecodeState => 2
    case ExecuteState => 3
  }

  /** The increment at the end of `coreStep`, which stops at EXECUTE. */
  function Advance(p: PipelineState): (q: PipelineState)
    ensures Rank(q) == if p == ExecuteState then 3 else Rank(p) + 1
  {
    match p
    case FlushState => FetchState
    case FetchState => DecodeState
    case DecodeState => ExecuteState
    case ExecuteState => ExecuteState
  }

  function AdvanceN(p: PipelineState, k: nat): PipelineState {
    if k == 0 then p else Advance(AdvanceN(p, k - 1))
  }

  /** Three steps without a jump take the pipeline from any state to EXECUTE, where it stays. */
  lemma {:induction false} PipelineSettles(p: PipelineState, k: nat)
    requires k >= 3
    ensures AdvanceN(p, k) == ExecuteState
  {
    if k > 3 {
      PipelineSettles(p, k - 1);
    } else {
      assert AdvanceN(p, 1) == Advance(p);
      assert AdvanceN(p, 2) == Advance(Advance(p));
    }
  }

  datatype Spsrs = Spsrs(irq: bv32, fiq: bv32, svc: bv32, abt: bv32, und: bv32)

  /**
   * The handler slot of `s_cpuDecodedOpcode`: an entry of the ARM table or
   * of the Thumb table, whichever state decoded it.
   */
  datatype Slot = ArmSlot(arm: CDecoder.ArmHandler) | ThumbSlot(thumb: CDecoder.ThumbHandler)

  /** The handler `cpuExecute` calls and the opcode it passes. */
  datatype Call = Call(slot: Slot, opcode: bv32)

  /**
   * Everything the CPU globals hold. `decoded` is the opcode half of
   * `s_cpuDecodedOpcode`; a Thumb decode replaces its low halfword only, as
   * a Thumb fetch replaces only the low halfword of `fetched`.
   */
  datatype CpuState = CpuState(psr: Psr, banks: Banked, spsr: Spsrs, stage: PipelineState,
                               fetched: bv32, slot: Slot, decoded: bv32, shifterCarry: bool)

  predicate Good(s: CpuState) {
    WellFormed(s.banks) && s.psr.mode < 32
  }

  /** `cpuJump`'s alignment: to 2 bytes in Thumb state, to 4 otherwise. */
  function Aligned(address: bv32, thumb: bool): (a: bv32)
    ensures thumb ==> a & 1 == 0
    ensures !thumb ==> a & 3 == 0
  {
    if thumb then address & 0xffff_fffe else address & 0xffff_fffc
  }

  function SetR(s: CpuState, k: nat, value: bv32): (s': CpuState)
    requires Good(s) && k < 16
    ensures Good(s')
  {
    s.(banks := s.banks.(r := s.banks.r[k := value]))
  }

  /** `cpuJump`. */
  function JumpSpec(s: CpuState, address: bv32): (s': CpuState)
    requires Good(s)
    ensures Good(s')
  {
    SetR(s, 15, Aligned(address, s.psr.t)).(stage := FlushState)
  }

  /** A jump changes r15 and the pipeline state and nothing else. */
  lemma JumpChangesOnlyPc(s: CpuState, address: bv32)
    requires Good(s)
    ensures var s' := JumpSpec(s, address);
            s'.banks.r[..15] == s.banks.r[..15] && s'.stage == FlushState &&
            s'.banks.r[15] == Aligned(address, s.psr.t) &&
            s' == s.(banks := s'.banks, stage := FlushState) && s'.banks == s.banks.(r := s'.banks.r)
  {
  }

  /** `cpuWriteRegister` of cpu.h: a write to r15 is a jump. */
  function WriteRegisterSpec(s: CpuState, rd: nat, value: bv32): (s': CpuState)
    requires Good(s) && rd < 16
    ensures Good(s')
  {
    if rd == 15 then JumpSpec(s, value) else SetR(s, rd, value)
  }

  /** `cpuWriteRegister` below R15 changes the one register; a write to R15 changes none of them. */
  lemma WriteRegisterAt(s: CpuState, rd: nat, value: bv32, k: nat)
    requires Good(s) && rd < 16 && k < 15
    ensures WriteRegisterSpec(s, rd, value).banks.r[k] == if k == rd then value else s.banks.r[k]
    ensures WriteRegisterSpec(s, rd, value).psr == s.psr
  {
    if rd == 15 {
      JumpChangesOnlyPc(s, value);
      assert JumpSpec(s, value).banks.r[k] == JumpSpec(s, value).banks.r[..15][k];
    }
  }

  /** `cpuSetCpsr`: the flags, then `cpuChangeMode` to the low five bits. */
  function SetCpsrSpec(s: CpuState, value: bv32): (s': CpuState)
    requires Good(s)
    ensures Good(s')
  {
    s.(psr := UnpackCpsr(value), banks := ChangeModeAsWritten(s.banks, s.psr.mode, value & 0x1f))
  }

  /** `cpuGetSpsr`: the CPSR itself in the user modes, 0 in a mode the switch does not name. */
  function SpsrOf(s: CpuState): bv32 {
    var m := s.psr.mode;
    if UsesUserBank(m) then PackCpsr(s.psr)
    else if UsesFiqBank(m) then s.spsr.fiq
    else if IsIrqMode(m) then s.spsr.irq
    else if IsSvcMode(m) then s.spsr.svc
    else if m == ABT then s.spsr.abt
    else if m == UND then s.spsr.und
    else 0
  }

  /** The SPSR of an exception mode replaced. */
  function WithSpsr(sp: Spsrs, m: bv32, value: bv32): Spsrs {
    if UsesFiqBank(m) then sp.(fiq := value)
    else if IsIrqMode(m) then sp.(irq := value)
    else if IsSvcMode(m) then sp.(svc := value)
    else if m == ABT then sp.(abt := value)
    else if m == UND then sp.(und := value)
    else sp
  }

  /** `cpuSetSpsr`: in the user modes it sets the CPSR. */
  function SetSpsrSpec(s: CpuState, value: bv32): (s': CpuState)
    requires Good(s)
    ensures Good(s')
  {
    if UsesUserBank(s.psr.mode) then SetCpsrSpec(s, value)
    else s.(spsr := WithSpsr(s.spsr, s.psr.mode, value))
  }

  /** In a mode with its own SPSR, setting it and reading it back gives the value; nothing else changes. */
  lemma SpsrRoundTrip(s: CpuState, value: bv32)
    requires Good(s) && IsDefinedMode(s.psr.mode) && !UsesUserBank(s.psr.mode)
    ensures SpsrOf(SetSpsrSpec(s, value)) == value
    ensures SetSpsrSpec(s, value).(spsr := s.spsr) == s
  {
  }

  /** In USR and SYS (and the old user mode) the SPSR accessors are the CPSR accessors. */
  lemma UserSpsrIsCpsr(s: CpuState, value: bv32)
    requires Good(s) && UsesUserBank(s.psr.mode)
    ensures SpsrOf(s) == PackCpsr(s.psr)
    ensures SetSpsrSpec(s, value) == SetCpsrSpec(s, value)
  {
  }

  /**
   * `cpuRaiseSwi`, `cpuRaiseUnd` and `cpuRaiseIrq`, as written: the mode
   * switch comes first, so the SPSR receives the CPSR of the exception mode,
   * with T and I as they were; then LR = PC, T = 0, I = 1 and the jump to
   * the vector.
   */
  function RaiseAsWritten(s: CpuState, m: bv32, vector: bv32): (s': CpuState)
    requires Good(s) && m < 32
    ensures Good(s')
  {
    var switched := s.(psr := s.psr.(mode := m), banks := ChangeModeAsWritten(s.banks, s.psr.mode, m));
    Enter(switched, WithSpsr(s.spsr, m, PackCpsr(switched.psr)), vector)
  }

  /** The exception entry that saves the CPSR of the interrupted code. */
  function Raise(s: CpuState, m: bv32, vector: bv32): (s': CpuState)
    requires Good(s) && m < 32
    ensures Good(s')
  {
    var switched := s.(psr := s.psr.(mode := m), banks := ChangeMode(s.banks, s.psr.mode, m));
    Enter(switched, WithSpsr(s.spsr, m, PackCpsr(s.psr)), vector)
  }

  /** The common tail: the SPSRs, LR = PC, Thumb off, IRQs masked, jump. */
  function Enter(s: CpuState, spsr: Spsrs, vector: bv32): (s': CpuState)
    requires Good(s)
    ensures Good(s')
  {
    var linked := SetR(s, 14, s.banks.r[15]).(spsr := spsr);
    JumpSpec(linked.(psr := linked.psr.(t := false, i := true)), vector)
  }

  /**
   * After the intended entry, the exception mode's SPSR holds the CPSR of
   * the interrupted code, so restoring it returns to that mode and flags.
   */
  lemma RaiseSavesCpsr(s: CpuState, m: bv32, vector: bv32)
    requires Good(s) && (m == SVC || m == UND || m == IRQ)
    ensures var s' := Raise(s, m, vector);
            s'.psr.mode == m && SpsrOf(s') == PackCpsr(s.psr) &&
            UnpackCpsr(SpsrOf(s')) == s.psr
    ensures Raise(s, m, vector).banks.r[15] == vector & 0xffff_fffc
    ensures Raise(s, m, vector).banks.r[14] == s.banks.r[15]
  {
    GetThenSetCpsr(s.psr);
  }

  /**
   * As written the saved mode is the exception mode itself: an SWI from
   * USR saves a CPSR whose mode field is SVC, so restoring it stays in SVC.
   */
  lemma RaiseAsWrittenSavesExceptionMode(s: CpuState, m: bv32, vector: bv32)
    requires Good(s) && (m == SVC || m == UND || m == IRQ)
    ensures UnpackCpsr(SpsrOf(RaiseAsWritten(s, m, vector))).mode == m
  {
    var switched := s.psr.(mode := m);
    GetThenSetCpsr(switched);
  }

  /** One step of `cpuReset`'s zeroing: a register file of `n` zeros. */
  function Zeros(n: nat): seq<bv32> { seq(n, _ => 0) }

  /**
   * `cpuReset`: flags cleared, every register and SPSR zero, then either the
   * boot-skipping stack pointers and entry point in SYS mode or SVC mode.
   * The mode is assigned without a bank switch; the opcode latches and the
   * shifter carry are left as they were.
   */
  function ResetSpec(s: CpuState, skipBoot: bool): (s': CpuState)
    ensures Good(s')
  {
    s.(psr := Psr(false, false, false, false, false, false, false, if skipBoot then SYS else SVC),
       banks := ResetBanks(skipBoot), spsr := Spsrs(0, 0, 0, 0, 0), stage := FlushState)
  }

  /** The registers after `cpuReset`. */
  function ResetBanks(skipBoot: bool): (b: Banked)
    ensures WellFormed(b)
  {
    if skipBoot then
      Banked(Zeros(16)[13 := 0x0300_7f00][15 := 0x0800_0000], Zeros(7), Zeros(7),
             [0x0300_7fa0, 0], [0x0300_7fe0, 0], Zeros(2), Zeros(2))
    else Banked(Zeros(16), Zeros(7), Zeros(7), Zeros(2), Zeros(2), Zeros(2), Zeros(2))
  }

  /** The program counter after a fetch: one halfword in Thumb state, one word otherwise. */
  function NextPc(pc: bv32, thumb: bool): bv32 {
    if thumb then pc + 2 else pc + 4
  }

  /** The low halfword of a word replaced, as a store to the `uint16_t` member of the union does. */
  function WithLowHalf(w: bv32, h: bv16): bv32 {
    (w & 0xffff_0000) | (h as bv32)
  }

  /** `cpuFetch` with the halfword and the word the bus returns at the fetch address. */
  function FetchSpec(s: CpuState, half: bv16, word: bv32): (s': CpuState)
    requires Good(s)
    ensures Good(s')
  {
    if Rank(s.stage) < 1 then s
    else if s.psr.t then SetR(s, 15, NextPc(s.banks.r[15], true)).(fetched := WithLowHalf(s.fetched, half))
    else SetR(s, 15, NextPc(s.banks.r[15], false)).(fetched := word)
  }

  /** `cpuDecode`: latch the fetched opcode and the table entry at its index. */
  function DecodeSpec(s: CpuState, arm: seq<CDecoder.ArmHandler>, thumb: seq<CDecoder.ThumbHandler>): CpuState
    requires |arm| == 4096 && |thumb| == 1024
  {
    if Rank(s.stage) < 2 then s
    else if s.psr.t then
      var op := Lo16(s.fetched);
      s.(decoded := WithLowHalf(s.decoded, op), slot := ThumbSlot(thumb[ThumbIndex(op)]))
    else s.(decoded := s.fetched, slot := ArmSlot(arm[ArmIndex(s.fetched)]))
  }

  /** The table positions of CDecoder's index functions. */
  function ThumbIndex(op: bv16): (k: nat)
    ensures k < 1024
  {
    CDecoder.ThumbDecodeIndex(op) as int
  }

  function ArmIndex(op: bv32): (k: nat)
    ensures k < 4096
  {
    CDecoder.ArmDecodeIndex(op) as int
  }

  /**
   * `cpuExecute`: at EXECUTE, a Thumb handler gets the low halfword, and an
   * ARM handler runs when its condition field passes.
   */
  function Pending(s: CpuState): (call: Option<Call>)
    ensures call.Some? ==> s.stage == ExecuteState
  {
    if Rank(s.stage) < 3 then None
    else if s.psr.t then Some(Call(s.slot, s.decoded & 0xffff))
    else if CheckCondition(s.decoded >> 28, s.psr) then Some(Call(s.slot, s.decoded))
    else None
  }

  /** The part of `coreStep` after the handler: decode, fetch at the address read before, advance. */
  function EndStepSpec(s: CpuState, arm: seq<CDecoder.ArmHandler>, thumb: seq<CDecoder.ThumbHandler>,
                       half: bv16, word: bv32): (s': CpuState)
    requires Good(s) && |arm| == 4096 && |thumb| == 1024
    ensures Good(s')
  {
    var f := FetchSpec(DecodeSpec(s, arm, thumb), half, word);
    f.(stage := Advance(f.stage))
  }

  /**
   * A fetch happens only from FETCH on: it latches the bus halfword (Thumb)
   * or word (ARM) and moves r15 past it, and changes nothing else.
   */
  lemma FetchMovesPc(s: CpuState, half: bv16, word: bv32)
    requires Good(s)
    ensures Rank(s.stage) == 0 ==> FetchSpec(s, half, word) == s
    ensures Rank(s.stage) >= 1 ==>
              var s' := FetchSpec(s, half, word);
              s'.banks.r[..15] == s.banks.r[..15] &&
              (s.psr.t ==> s'.banks.r[15] - s.banks.r[15] == 2 && Lo16(s'.fetched) == half && Hi16(s'.fetched) == Hi16(s.fetched)) &&
              (!s.psr.t ==> s'.banks.r[15] - s.banks.r[15] == 4 && s'.fetched == word) &&
              s' == s.(banks := s'.banks, fetched := s'.fetched)
  {
    if Rank(s.stage) >= 1 && s.psr.t {
      LowHalfReplaced(s.fetched, half);
    }
  }

  lemma LowHalfReplaced(w: bv32, h: bv16)
    ensures Lo16(WithLowHalf(w, h)) == h && Hi16(WithLowHalf(w, h)) == Hi16(w)
  {
  }

  /**
   * A decode happens only from DECODE on: the opcode is latched with the
   * table entry at its index, bits 27-20 and 7-4 for ARM and bits 15-6 for
   * Thumb.
   */
  lemma DecodeLatches(s: CpuState, arm: seq<CDecoder.ArmHandler>, thumb: seq<CDecoder.ThumbHandler>)
    requires |arm| == 4096 && |thumb| == 1024
    ensures Rank(s.stage) < 2 ==> DecodeSpec(s, arm, thumb) == s
    ensures Rank(s.stage) >= 2 && !s.psr.t ==>
              var s' := DecodeSpec(s, arm, thumb);
              s'.decoded == s.fetched && s'.slot == ArmSlot(arm[ArmIndex(s.fetched)]) &&
              s' == s.(decoded := s'.decoded, slot := s'.slot)
    ensures Rank(s.stage) >= 2 && s.psr.t ==>
              var s' := DecodeSpec(s, arm, thumb);
              Lo16(s'.decoded) == Lo16(s.fetched) && s'.slot == ThumbSlot(thumb[ThumbIndex(Lo16(s.fetched))]) &&
              s' == s.(decoded := s'.decoded, slot := s'.slot)
  {
    if Rank(s.stage) >= 2 && s.psr.t {
      LowHalfReplaced(s.decoded, Lo16(s.fetched));
    }
  }

  /**
   * Handlers run only at EXECUTE; there a Thumb handler always runs, and an
   * ARM handler runs exactly when the condition field passes on the flags.
   */
  lemma ExecuteRunsPassingOpcodes(s: CpuState)
    ensures Pending(s).Some? ==> s.stage == ExecuteState && Pending(s).value.slot == s.slot
    ensures s.stage == ExecuteState && s.psr.t ==> Pending(s).Some?
    ensures s.stage == ExecuteState && !s.psr.t ==>
              (Pending(s).Some? <==> ArmRef.ConditionPassed(s.decoded >> 28, FlagsOf(s.psr)))
  {
    var cond := s.decoded >> 28;
    assert cond < 16;
  }

  /** From any pipeline state, a step without a jump advances it by one, stopping at EXECUTE. */
  lemma EndStepAdvances(s: CpuState, arm: seq<CDecoder.ArmHandler>, thumb: seq<CDecoder.ThumbHandler>, half: bv16, word: bv32)
    requires Good(s) && |arm| == 4096 && |thumb| == 1024
    ensures EndStepSpec(s, arm, thumb, half, word).stage == Advance(s.stage)
  {
  }

  /** `setFlagsArithmetical` of bitops.h: Z when the result is zero, N its sign bit. */
  function ArithmeticalFlagsSpec(s: CpuState, result: bv32): (s': CpuState)
    ensures s' == s.(psr := s'.psr) && s'.psr.mode == s.psr.mode
  {
    s.(psr := s.psr.(z := result == 0, n := result & 0x8000_0000 != 0))
  }

  /** `setFlagsLogical`: the same, and C from the shifter carry. */
  function LogicalFlagsSpec(s: CpuState, result: bv32): (s': CpuState)
    ensures s' == s.(psr := s'.psr) && s'.psr.mode == s.psr.mode
  {
    var a := ArithmeticalFlagsSpec(s, result);
    a.(psr := a.psr.(c := s.shifterCarry))
  }

  /**
   * After the flags are set from a result, EQ passes exactly when it is
   * zero and MI exactly when it is negative as a signed word. C and V are
   * left alone by the arithmetical update.
   */
  lemma FlagsMeanResult(s: CpuState, result: bv32)
    ensures var p := ArithmeticalFlagsSpec(s, result).psr;
            (CheckCondition(0x0, p) <==> result == 0) &&
            (CheckCondition(0x4, p) <==> result >= 0x8000_0000) &&
            p.c == s.psr.c && p.v == s.psr.v && p.mode == s.psr.mode
  {
    SignBit(result);
  }

  /** After a logical update CS passes exactly when the shifter carried out. */
  lemma LogicalCarryMeansCs(s: CpuState, result: bv32)
    ensures CheckCondition(0x2, LogicalFlagsSpec(s, result).psr) <==> s.shifterCarry
  {
  }

  lemma SignBit(w: bv32)
    ensures w & 0x8000_0000 != 0 <==> w >= 0x8000_0000
  {
  }

  /** The stub ARM table of `cpuInitArmDecodeTable`: BX at 0x121, undefined everywhere else. */
  function StubArmEntry(k: nat): CDecoder.ArmHandler {
    if k == 0x121 then CDecoder.ArmBx else CDecoder.ArmUnd
  }

  /**
   * With the stub table an ARM opcode reaches the BX handler exactly when
   * bits 27-20 are 0x12 and bits 7-4 are 1, the index decoder.c also sends
   * to BX; every other opcode raises the undefined instruction exception.
   */
  lemma StubDispatch(op: bv32)
    ensures StubArmEntry(ArmIndex(op)) == CDecoder.ArmBx <==> ((op >> 20) & 0xff == 0x12 && (op >> 4) & 0xf == 1)
    ensures StubArmEntry(ArmIndex(op)) != CDecoder.ArmBx ==> StubArmEntry(ArmIndex(op)) == CDecoder.ArmUnd
    ensures StubArmEntry(ArmIndex(op)) == CDecoder.ArmBx ==> CDecoder.ArmClass(CDecoder.ArmDecodeIndex(op)) == CDecoder.ArmBx
  {
    SplitIndex(CDecoder.ArmDecodeIndex(op));
  }

  lemma SplitIndex(i: bv16)
    requires i < 0x1000
    ensures i == 0x121 <==> (i >> 4 == 0x12 && i & 0xf == 1)
  {
  }

  /** Fills the registers with zeros, as `memset` does. */
  method Zero(a: array<bv32>)
    modifies a
    ensures a[..] == Zeros(a.Length)
  {
    var k := 0;
    while k < a.Length
      invariant k <= a.Length
      invariant forall j :: 0 <= j < k ==> a[j] == 0
    {
      a[k] := 0;
      k := k + 1;
    }
  }

  /** Copies `count` registers from `src[from..]` to `dst[at..]`, as the register-by-register moves of `cpuChangeMode` do. */
  method Copy(dst: array<bv32>, at: nat, src: array<bv32>, from: nat, count: nat)
    requires dst != src && at + count <= dst.Length && from + count <= src.Length
    modifies dst
    ensures dst[..] == old(dst[..at]) + src[from..from + count] + old(dst[at + count..])
  {
    var k := 0;
    while k < count
      invariant k <= count
      invariant forall j :: 0 <= j < dst.Length ==>
                  dst[j] == if at <= j < at + k then src[from + j - at] else old(dst[j])
    {
      dst[at + k] := src[from + k];
      k := k + 1;
    }
    assert forall j :: 0 <= j < dst.Length ==>
             dst[j] == (old(dst[..at]) + src[from..from + count] + old(dst[at + count..]))[j];
  }

  /**
   * The globals of cpu.c: the visible registers, the banks, the SPSRs, the
   * flags as separate booleans, the mode, the pipeline state, the fetch and
   * decode latches, the shifter carry and the two decode tables.
   */
  class Cpu {
    const r: array<bv32>
    const usr: array<bv32>
    const fiq: array<bv32>
    const irq: array<bv32>
    const svc: array<bv32>
    const abt: array<bv32>
    const und: array<bv32>
    const armTable: array<CDecoder.ArmHandler>
    const thumbTable: array<CDecoder.ThumbHandler>
    var spsr: Spsrs
    var psr: Psr
    var stage: PipelineState
    var fetched: bv32
    var slot: Slot
    var decoded: bv32
    var shifterCarry: bool

    /** Every object the CPU's operations may change. */
    function Registers(): set<object> {
      {this, r, usr, fiq, irq, svc, abt, und}
    }

    predicate Valid()
      reads this
    {
      r.Length == 16 && usr.Length == 7 && fiq.Length == 7 && irq.Length == 2 &&
      svc.Length == 2 && abt.Length == 2 && und.Length == 2 &&
      armTable.Length == 4096 && thumbTable.Length == 1024 &&
      r != usr && r != fiq && r != irq && r != svc && r != abt && r != und &&
      usr != fiq && usr != irq && usr != svc && usr != abt && usr != und &&
      fiq != irq && fiq != svc && fiq != abt && fiq != und &&
      irq != svc && irq != abt && irq != und &&
      svc != abt && svc != und && abt != und &&
      psr.mode < 32
    }

    function Banks(): Banked
      reads r, usr, fiq, irq, svc, abt, und
    {
      Banked(r[..], usr[..], fiq[..], irq[..], svc[..], abt[..], und[..])
    }

    function State(): (s: CpuState)
      reads this, r, usr, fiq, irq, svc, abt, und
      requires Valid()
      ensures Good(s)
    {
      CpuState(psr, Banks(), spsr, stage, fetched, slot, decoded, shifterCarry)
    }

    /** The zero-initialised storage of the globals, with empty decode tables. */
    constructor ()
      ensures Valid() && fresh(Registers()) && fresh(armTable) && fresh(thumbTable)
      ensures State() == CpuState(Psr(false, false, false, false, false, false, false, 0), ResetBanks(false),
                                  Spsrs(0, 0, 0, 0, 0), FlushState, 0, ArmSlot(CDecoder.ArmNull), 0, false)
      ensures forall k :: 0 <= k < 4096 ==> armTable[k] == CDecoder.ArmNull
      ensures forall k :: 0 <= k < 1024 ==> thumbTable[k] == CDecoder.ThumbNull
    {
      r := new bv32[16];
      usr := new bv32[7];
      fiq := new bv32[7];
      irq := new bv32[2];
      svc := new bv32[2];
      abt := new bv32[2];
      und := new bv32[2];
      armTable := new CDecoder.ArmHandler[4096](_ => CDecoder.ArmNull);
      thumbTable := new CDecoder.ThumbHandler[1024](_ => CDecoder.ThumbNull);
      spsr := Spsrs(0, 0, 0, 0, 0);
      psr := Psr(false, false, false, false, false, false, false, 0);
      stage := FlushState;
      fetched, decoded := 0, 0;
      slot := ArmSlot(CDecoder.ArmNull);
      shifterCarry := false;
      new;
      ClearRegisters();
    }

    /** `cpuInit`: the stub tables. */
    method Init()
      requires Valid()
      modifies armTable, thumbTable
      ensures forall k :: 0 <= k < 4096 ==> armTable[k] == StubArmEntry(k)
      ensures forall k :: 0 <= k < 1024 ==> thumbTable[k] == CDecoder.ThumbUnd
    {
      var k := 0;
      while k < 4096
        invariant k <= 4096
        invariant forall j :: 0 <= j < k ==> armTable[j] == CDecoder.ArmUnd
      {
        armTable[k] := CDecoder.ArmUnd;
        k := k + 1;
      }
      armTable[0x121] := CDecoder.ArmBx;
      k := 0;
      while k < 1024
        invariant k <= 1024
        invariant forall j :: 0 <= j < k ==> thumbTable[j] == CDecoder.ThumbUnd
        invariant forall j :: 0 <= j < 4096 ==> armTable[j] == StubArmEntry(j)
      {
        thumbTable[k] := CDecoder.ThumbUnd;
        k := k + 1;
      }
    }

    /** `cpuReset`. */
    method Reset(skipBoot: bool)
      requires Valid()
      modifies Registers()
      ensures Valid() && State() == ResetSpec(old(State()), skipBoot)
    {
      stage := FlushState;
      psr := psr.(z := false, c := false, n := false, v := false, t := false);
      ClearRegisters();
      spsr := Spsrs(0, 0, 0, 0, 0);
      if skipBoot {
        psr := psr.(i := false, f := false);
        SetBootRegisters();
        psr := psr.(mode := SYS);
      } else {
        psr := psr.(i := false, f := false);
        psr := psr.(mode := SVC);
      }
    }

    /** The `memset`s of `cpuReset`. */
    method ClearRegisters()
      requires Valid()
      modifies r, usr, fiq, irq, svc, abt, und
      ensures Banks() == ResetBanks(false)
    {
      Zero(r);
      Zero(irq);
      Zero(svc);
      Zero(abt);
      Zero(und);
      Zero(fiq);
      Zero(usr);
    }

    /** The stack pointers and the entry point that `cpuReset` sets when the BIOS is skipped. */
    method SetBootRegisters()
      requires Valid() && Banks() == ResetBanks(false)
      modifies r, irq, svc
      ensures Banks() == ResetBanks(true)
    {
      r[13] := 0x0300_7f00;
      r[15] := 0x0800_0000;
      irq[0] := 0x0300_7fa0;
      svc[0] := 0x0300_7fe0;
    }

    /** The two-register bank of mode `m`. */
    function ShortArray(m: bv32): (a: array<bv32>)
      reads this
      requires Valid() && HasShortBank(m)
      ensures a != r && a != usr && a != fiq && a.Length == 2
    {
      if IsIrqMode(m) then irq else if IsSvcMode(m) then svc else if m == ABT then abt else und
    }

    /** The first switch of `cpuChangeMode`, on the current mode. */
    method SaveBankedRegisters()
      requires Valid()
      modifies usr, fiq, irq, svc, abt, und
      ensures Banks() == SaveBankAsWritten(old(Banks()), psr.mode)
    {
      if UsesUserBank(psr.mode) {
        Copy(usr, 0, r, 8, 7);
      } else if UsesFiqBank(psr.mode) {
        Copy(fiq, 0, r, 8, 7);
      } else if IsIrqMode(psr.mode) {
        SaveIrqRegisters();
      } else if HasShortBank(psr.mode) {
        SaveShortBank(psr.mode);
      }
    }

    /** Leaving IRQ: r8-r12 to the user bank, then r13 and r14 both to the first IRQ register. */
    method SaveIrqRegisters()
      requires Valid()
      modifies usr, irq
      ensures Banks() == old(Banks()).(usr := old(r[8..13] + usr[5..]), irq := [r[14], old(irq[1])])
    {
      Copy(usr, 0, r, 8, 5);
      irq[0] := r[13];
      irq[0] := r[14];
    }

    /** Leaving SVC, ABT or UND: r8-r12 to the user bank, r13 and r14 to the mode's own. */
    method SaveShortBank(m: bv32)
      requires Valid() && HasShortBank(m)
      modifies usr, ShortArray(m)
      ensures Banks() == WithShortBank(old(Banks()).(usr := old(r[8..13] + usr[5..])), m, r[13..15])
    {
      Copy(usr, 0, r, 8, 5);
      Copy(ShortArray(m), 0, r, 13, 2);
    }

    /** The second switch of `cpuChangeMode`, on the new mode. */
    method LoadBankedRegisters(newMode: bv32)
      requires Valid()
      modifies r
      ensures Banks() == LoadBank(old(Banks()), newMode)
    {
      if UsesUserBank(newMode) {
        Copy(r, 8, usr, 0, 7);
      } else if UsesFiqBank(newMode) {
        Copy(r, 8, fiq, 0, 7);
      } else if HasShortBank(newMode) {
        LoadShortBank(newMode);
      }
    }

    /** Entering IRQ, SVC, ABT or UND: r8-r12 from the user bank, r13 and r14 from the mode's own. */
    method LoadShortBank(m: bv32)
      requires Valid() && HasShortBank(m)
      modifies r
      ensures Banks() == old(Banks()).(r := old(r[..8]) + usr[..5] + ShortArray(m)[..] + old(r[15..]))
    {
      Copy(r, 8, usr, 0, 5);
      ghost var mid := r[..];
      assert mid[..13] == old(r[..8]) + usr[..5] && mid[15..] == old(r[15..]);
      Copy(r, 13, ShortArray(m), 0, 2);
    }

    /** `cpuChangeMode`. */
    method ChangeMode(newMode: bv32)
      requires Valid() && newMode < 32
      modifies Registers()
      ensures Valid()
      ensures State() == old(State()).(psr := old(psr).(mode := newMode),
                                       banks := ChangeModeAsWritten(old(Banks()), old(psr.mode), newMode))
    {
      SaveBankedRegisters();
      LoadBankedRegisters(newMode);
      psr := psr.(mode := newMode);
    }

    /** `cpuJump`. */
    method Jump(address: bv32)
      requires Valid()
      modifies this, r
      ensures Valid() && State() == JumpSpec(old(State()), address)
    {
      var target := if psr.t then address & 0xffff_fffe else address & 0xffff_fffc;
      r[15] := target;
      stage := FlushState;
    }

    /** `cpuWriteRegister` of cpu.h. */
    method WriteRegister(rd: nat, value: bv32)
      requires Valid() && rd < 16
      modifies this, r
      ensures Valid() && State() == WriteRegisterSpec(old(State()), rd, value)
    {
      if rd == 15 {
        Jump(value);
      } else {
        r[rd] := value;
      }
    }

    /** `cpuGetCpsr`. */
    function Cpsr(): bv32
      reads this
    {
      PackCpsr(psr)
    }

    /** `cpuGetSpsr`. */
    function Spsr(): bv32
      reads this, r, usr, fiq, irq, svc, abt, und
      requires Valid()
    {
      SpsrOf(State())
    }

    /** `cpuSetCpsr`. */
    method SetCpsr(value: bv32)
      requires Valid()
      modifies Registers()
      ensures Valid() && State() == SetCpsrSpec(old(State()), value)
    {
      psr := psr.(n := Flag(value, 0x8000_0000), z := Flag(value, 0x4000_0000),
                  c := Flag(value, 0x2000_0000), v := Flag(value, 0x1000_0000),
                  i := Flag(value, 0x80), f := Flag(value, 0x40), t := Flag(value, 0x20));
      ChangeMode(value & 0x1f);
    }

    /** `cpuSetSpsr`. */
    method SetSpsr(value: bv32)
      requires Valid()
      modifies Registers()
      ensures Valid() && State() == SetSpsrSpec(old(State()), value)
    {
      if UsesUserBank(psr.mode) {
        SetCpsr(value);
      } else {
        spsr := WithSpsr(spsr, psr.mode, value);
      }
    }

    /** `cpuRestoreCpsr` of cpu.h. */
    method RestoreCpsr()
      requires Valid()
      modifies Registers()
      ensures Valid() && State() == SetCpsrSpec(old(State()), SpsrOf(old(State())))
    {
      SetCpsr(Spsr());
    }

    /** The tail the three exception entries share: LR = PC, Thumb off, IRQs masked, jump. */
    method EnterVector(vector: bv32)
      requires Valid()
      modifies this, r
      ensures Valid() && State() == Enter(old(State()), old(spsr), vector)
    {
      r[14] := r[15];
      psr := psr.(t := false, i := true);
      Jump(vector);
    }

    /** `cpuRaiseSwi`. */
    method RaiseSwi()
      requires Valid()
      modifies Registers()
      ensures Valid() && State() == RaiseAsWritten(old(State()), SVC, VECTOR_SWI)
    {
      ChangeMode(SVC);
      spsr := spsr.(svc := Cpsr());
      EnterVector(VECTOR_SWI);
    }

    /** `cpuRaiseUnd`. */
    method RaiseUnd()
      requires Valid()
      modifies Registers()
      ensures Valid() && State() == RaiseAsWritten(old(State()), UND, VECTOR_UND)
    {
      ChangeMode(UND);
      spsr := spsr.(und := Cpsr());
      EnterVector(VECTOR_UND);
    }

    /** `cpuRaiseIrq`. */
    method RaiseIrq()
      requires Valid()
      modifies Registers()
      ensures Valid() && State() == RaiseAsWritten(old(State()), IRQ, VECTOR_IRQ)
    {
      ChangeMode(IRQ);
      spsr := spsr.(irq := Cpsr());
      EnterVector(VECTOR_IRQ);
    }

    /** `setFlagsArithmetical` of bitops.h. */
    method SetFlagsArithmetical(result: bv32)
      requires Valid()
      modifies this
      ensures Valid() && State() == ArithmeticalFlagsSpec(old(State()), result)
    {
      psr := psr.(z := result == 0, n := result & 0x8000_0000 != 0);
    }

    /** `setFlagsLogical` of bitops.h. */
    method SetFlagsLogical(result: bv32)
      requires Valid()
      modifies this
      ensures Valid() && State() == LogicalFlagsSpec(old(State()), result)
    {
      SetFlagsArithmetical(result);
      psr := psr.(c := shifterCarry);
    }

    /** `cpuFetch`, reading through the bus functions. */
    method Fetch(address: bv32, read16: bv32 -> bv16, read32: bv32 -> bv32)
      requires Valid()
      modifies this, r
      ensures Valid() && State() == FetchSpec(old(State()), read16(address), read32(address))
    {
      if Rank(stage) >= 1 {
        if psr.t {
          fetched := WithLowHalf(fetched, read16(address));
          r[15] := NextPc(r[15], true);
        } else {
          fetched := read32(address);
          r[15] := NextPc(r[15], false);
        }
      }
    }

    /** `cpuDecode`. */
    method Decode()
      requires Valid()
      modifies this
      ensures Valid() && State() == DecodeSpec(old(State()), armTable[..], thumbTable[..])
    {
      if Rank(stage) >= 2 {
        if psr.t {
          var op := Lo16(fetched);
          decoded := WithLowHalf(decoded, op);
          slot := ThumbSlot(thumbTable[ThumbIndex(op)]);
        } else {
          decoded := fetched;
          slot := ArmSlot(armTable[ArmIndex(fetched)]);
        }
      }
    }

    /**
     * The end of `coreStep`, after the handler of `Pending` has run: decode,
     * fetch at the address read before the handler ran, advance.
     */
    method EndStep(fetchAddress: bv32, read16: bv32 -> bv16, read32: bv32 -> bv32)
      requires Valid()
      modifies this, r
      ensures Valid()
      ensures State() == EndStepSpec(old(State()), armTable[..], thumbTable[..],
                                     read16(fetchAddress), read32(fetchAddress))
    {
      Decode();
      Fetch(fetchAddress, read16, read32);
      if stage != ExecuteState {
        stage := Advance(stage);
      }
    }
  }
}
