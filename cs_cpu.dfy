// src/GBA/CPU.cs: the register file of the C# ARM7TDMI core, the CPSR
// accessor, the banked-register switch on a mode change, reset, and the
// fetch stage that `Cycle` drives through the pipeline states.
//
// The bus that `Fetch` reads is passed in as the two read functions it calls.
// `Execute` and `Decode` have empty bodies in the source and change nothing.

module CsCpu {
  import opened Bits
  import CsBitUtils

  // The values of `enum Mode`.
  const USR_OLD: bv32 := 0x00
  const FIQ_OLD: bv32 := 0x01
  const IRQ_OLD: bv32 := 0x02
  const SVC_OLD: bv32 := 0x03
  const USR: bv32 := 0x10
  const FIQ: bv32 := 0x11
  const IRQ: bv32 := 0x12
  const SVC: bv32 := 0x13
  const ABT: bv32 := 0x17
  const UND: bv32 := 0x1b
  const SYS: bv32 := 0x1f

  /** The eleven modes `CheckMode` accepts. */
  predicate IsDefinedMode(m: bv32) {
    m == USR_OLD || m == FIQ_OLD || m == IRQ_OLD || m == SVC_OLD || m == USR || m == FIQ ||
    m == IRQ || m == SVC || m == ABT || m == UND || m == SYS
  }

  /** Modes whose r8-r14 live in the user bank. */
  predicate UsesUserBank(m: bv32) { m == USR_OLD || m == USR || m == SYS }

  /** Modes whose r8-r14 live in the FIQ bank. */
  predicate UsesFiqBank(m: bv32) { m == FIQ_OLD || m == FIQ }

  /** Modes with their own two-register r13/r14 bank. */
  predicate HasShortBank(m: bv32) {
    m == IRQ_OLD || m == IRQ || m == SVC_OLD || m == SVC || m == ABT || m == UND
  }

  // ---------------------------------------------------------------- CPSR

  /** The fields behind the `Cpsr` property. */
  datatype Psr = Psr(n: bool, z: bool, c: bool, v: bool, i: bool, f: bool, t: bool, mode: bv32)

  /** The `Cpsr` getter: N, Z, C, V at bits 31..28, I, F, T at bits 7..5, the mode below. */
  function PackCpsr(p: Psr): bv32 {
    (if p.n then 1 << 31 else 0) | (if p.z then 1 << 30 else 0) |
    (if p.c then 1 << 29 else 0) | (if p.v then 1 << 28 else 0) |
    (if p.i then 1 << 7 else 0) | (if p.f then 1 << 6 else 0) |
    (if p.t then 1 << 5 else 0) | p.mode
  }

  /** The assignments the `Cpsr` setter makes before it calls `CheckMode`. */
  function UnpackCpsr(value: bv32): Psr {
    Psr(CsBitUtils.BitTest32(value, 31), CsBitUtils.BitTest32(value, 30),
        CsBitUtils.BitTest32(value, 29), CsBitUtils.BitTest32(value, 28),
        CsBitUtils.BitTest32(value, 7), CsBitUtils.BitTest32(value, 6),
        CsBitUtils.BitTest32(value, 5), value & 0x1f)
  }

  /** Setting the CPSR and reading it back keeps bits 31..28 and 7..0 and clears the rest. */
  lemma SetThenGetCpsr(value: bv32)
    ensures PackCpsr(UnpackCpsr(value)) == value & 0xf000_00ff
  {
  }

  /** Reading the CPSR and writing it back restores every field (the mode is a 5-bit value). */
  lemma GetThenSetCpsr(p: Psr)
    requires p.mode < 32
    ensures UnpackCpsr(PackCpsr(p)) == p
  {
  }

  /** Whether the `Cpsr` setter returns or throws "Undefined mode". */
  datatype CpsrOutcome = Accepted | UndefinedMode

  /**
   * `CheckMode`: the setter throws "Undefined mode" for anything but the
   * eleven modes, which are exactly the 5-bit values that have a register
   * bank for `ChangeMode` to switch to.
   */
  function CheckMode(m: bv32): (res: CpsrOutcome)
    ensures res == Accepted <==> UsesUserBank(m) || UsesFiqBank(m) || HasShortBank(m)
    ensures res == Accepted ==> m < 32
  {
    if IsDefinedMode(m) then Accepted else UndefinedMode
  }

  // ---------------------------------------------------- banked registers

  /** Contents of the seven register arrays. */
  datatype Banked = Banked(r: seq<bv32>, usr: seq<bv32>, fiq: seq<bv32>,
                           irq: seq<bv32>, svc: seq<bv32>, abt: seq<bv32>, und: seq<bv32>)

  predicate WellFormed(b: Banked) {
    |b.r| == 16 && |b.usr| == 7 && |b.fiq| == 7 &&
    |b.irq| == 2 && |b.svc| == 2 && |b.abt| == 2 && |b.und| == 2
  }

  /**
   * What a mode change leaves behind. Leaving IRQ, SVC, ABT or UND stores
   * r13 and r14 into element 5 and 6 of a two-element bank, which throws an
   * IndexOutOfRangeException after r8-r12 have been saved; `OutOfRange`
   * carries the state at that point.
   */
  datatype ModeChange = Changed(banks: Banked) | OutOfRange(banks: Banked)

  /** First switch of `ChangeMode`: save the outgoing mode's r8-r14. */
  function SaveBank(b: Banked, oldMode: bv32): (mc: ModeChange)
    requires WellFormed(b)
    ensures WellFormed(mc.banks)
  {
    if UsesUserBank(oldMode) then Changed(b.(usr := b.r[8..15]))
    else if UsesFiqBank(oldMode) then Changed(b.(fiq := b.r[8..15]))
    else if HasShortBank(oldMode) then OutOfRange(b.(usr := b.r[8..13] + b.usr[5..]))
    else Changed(b)
  }

  /** The two-register bank of a mode with one. */
  function ShortBank(b: Banked, m: bv32): seq<bv32>
    requires HasShortBank(m)
  {
    if m == IRQ_OLD || m == IRQ then b.irq
    else if m == SVC_OLD || m == SVC then b.svc
    else if m == ABT then b.abt
    else b.und
  }

  /** Second switch of `ChangeMode`: load the incoming mode's r8-r14. */
  function LoadBank(b: Banked, newMode: bv32): (b': Banked)
    requires WellFormed(b)
    ensures WellFormed(b')
  {
    if UsesUserBank(newMode) then b.(r := b.r[..8] + b.usr + b.r[15..])
    else if UsesFiqBank(newMode) then b.(r := b.r[..8] + b.fiq + b.r[15..])
    else if HasShortBank(newMode) then b.(r := b.r[..8] + b.usr[..5] + ShortBank(b, newMode) + b.r[15..])
    else b
  }

  function ChangeModeSpec(b: Banked, oldMode: bv32, newMode: bv32): (mc: ModeChange)
    requires WellFormed(b)
    ensures WellFormed(mc.banks)
  {
    match SaveBank(b, oldMode)
    case Changed(saved) => Changed(LoadBank(saved, newMode))
    case OutOfRange(partial) => OutOfRange(partial)
  }

  /** The switch faults exactly when the outgoing mode has a two-register bank. */
  lemma ChangeModeFaults(b: Banked, oldMode: bv32, newMode: bv32)
    requires WellFormed(b)
    ensures ChangeModeSpec(b, oldMode, newMode).OutOfRange? <==> HasShortBank(oldMode)
    ensures ChangeModeSpec(b, oldMode, newMode).OutOfRange? ==>
              var p := ChangeModeSpec(b, oldMode, newMode).banks;
              p.r == b.r && p.usr[..5] == b.r[8..13] && p.usr[5..] == b.usr[5..] &&
              p.fiq == b.fiq && p.irq == b.irq && p.svc == b.svc && p.abt == b.abt && p.und == b.und
  {
  }

  /** r0-r7 and r15 never move on a mode change. */
  lemma ChangeModeKeepsUnbanked(b: Banked, oldMode: bv32, newMode: bv32)
    requires WellFormed(b)
    ensures var r' := ChangeModeSpec(b, oldMode, newMode).banks.r;
            r'[..8] == b.r[..8] && r'[15] == b.r[15]
  {
  }

  /** Going from a user-bank mode to FIQ and back restores r8-r14 and leaves the FIQ bank as it was. */
  lemma FiqRoundTrip(b: Banked, userMode: bv32, backMode: bv32)
    requires WellFormed(b) && UsesUserBank(userMode) && UsesUserBank(backMode)
    ensures var there := ChangeModeSpec(b, userMode, FIQ);
            there.Changed? &&
            var back := ChangeModeSpec(there.banks, FIQ, backMode);
            back.Changed? && back.banks.r == b.r && back.banks.fiq == b.fiq
  {
    var saved := b.(usr := b.r[8..15]);
    var inFiq := LoadBank(saved, FIQ);
    assert inFiq.r[8..15] == b.fiq;
    var saved2 := inFiq.(fiq := inFiq.r[8..15]);
    assert LoadBank(saved2, backMode).r == b.r;
  }

  /** In FIQ mode r8-r14 are FIQ's own; the user copies are left alone. */
  lemma EnterFiqSwapsBanks(b: Banked, userMode: bv32)
    requires WellFormed(b) && UsesUserBank(userMode)
    ensures var after := ChangeModeSpec(b, userMode, FIQ).banks;
            after.r[8..15] == b.fiq && after.usr == b.r[8..15]
  {
    var saved := b.(usr := b.r[8..15]);
    assert LoadBank(saved, FIQ).r[8..15] == b.fiq;
  }

  // ------------------------------------------------------------ pipeline

  datatype PipelineState = Flush | Fetch | Decode | Execute

  /** The switch at the end of `Cycle`; Execute has no case and stays. */
  function Advance(p: PipelineState): PipelineState {
    match p
    case Flush => Fetch
    case Fetch => Decode
    case Decode => Execute
    case Execute => Execute
  }

  function AdvanceN(p: PipelineState, k: nat): PipelineState {
    if k == 0 then p else Advance(AdvanceN(p, k - 1))
  }

  /** From any state, three cycles reach Execute, which is then kept. */
  lemma {:induction false} PipelineSettles(p: PipelineState, k: nat)
    requires k >= 3
    ensures AdvanceN(p, k) == Execute
  {
    if k > 3 {
      PipelineSettles(p, k - 1);
    } else {
      assert AdvanceN(p, 1) == Advance(p);
      assert AdvanceN(p, 2) == Advance(Advance(p));
    }
  }

  /** From Flush the states are visited in order. */
  lemma PipelineOrder()
    ensures AdvanceN(Flush, 1) == Fetch && AdvanceN(Flush, 2) == Decode && AdvanceN(Flush, 3) == Execute
  {
  }

  /** The program counter after a fetch: one halfword in Thumb state, one word in ARM state. */
  function NextPc(pc: bv32, thumb: bool): bv32 {
    if thumb then pc + 2 else pc + 4
  }

  // ------------------------------------------------------------ the CPU

  /** One of the `for` loops of `Reset` that clear a register file. */
  method Zero(a: array<bv32>)
    modifies a
    ensures a[..] == seq(a.Length, _ => 0)
  {
    for i := 0 to a.Length
      invariant forall k :: 0 <= k < i ==> a[k] == 0
    {
      a[i] := 0;
    }
  }

  class Cpu {
    const r: array<bv32>
    const rUsr: array<bv32>
    const rIrq: array<bv32>
    const rFiq: array<bv32>
    const rSvc: array<bv32>
    const rAbt: array<bv32>
    const rUnd: array<bv32>

    var spsrIrq: bv32
    var spsrFiq: bv32
    var spsrSvc: bv32
    var spsrAbt: bv32
    var spsrUnd: bv32

    var mode: bv32
    var flagN: bool
    var flagZ: bool
    var flagC: bool
    var flagV: bool
    var flagI: bool
    var flagF: bool
    var flagT: bool

    var pipelineState: PipelineState
    var fetchedOpcodeArm: bv32
    var fetchedOpcodeThumb: bv16

    // Declared in src/GBA/CPU_ARM.cs, the other half of the partial class.
    var shifterResult: bv32
    var shifterCarry: bool

    ghost predicate Valid()
      reads this
    {
      r.Length == 16 && rUsr.Length == 7 && rFiq.Length == 7 &&
      rIrq.Length == 2 && rSvc.Length == 2 && rAbt.Length == 2 && rUnd.Length == 2 &&
      r != rUsr && r != rFiq && r != rIrq && r != rSvc && r != rAbt && r != rUnd &&
      rUsr != rFiq && rUsr != rIrq && rUsr != rSvc && rUsr != rAbt && rUsr != rUnd &&
      rFiq != rIrq && rFiq != rSvc && rFiq != rAbt && rFiq != rUnd &&
      rIrq != rSvc && rIrq != rAbt && rIrq != rUnd &&
      rSvc != rAbt && rSvc != rUnd && rAbt != rUnd &&
      mode < 32
    }

    ghost function Banks(): (b: Banked)
      reads this, r, rUsr, rIrq, rFiq, rSvc, rAbt, rUnd
      requires Valid()
      ensures WellFormed(b)
    {
      Banked(r[..], rUsr[..], rFiq[..], rIrq[..], rSvc[..], rAbt[..], rUnd[..])
    }

    function Status(): Psr
      reads this
    {
      Psr(flagN, flagZ, flagC, flagV, flagI, flagF, flagT, mode)
    }

    /** The `Cpsr` getter. */
    function Cpsr(): bv32
      reads this
    {
      PackCpsr(Status())
    }

    /**
     * `new CPU(gba)`: the arrays are allocated and `Reset` runs; the
     * pipeline state keeps the enum's default, `Flush`, since `Reset` does
     * not assign it.
     */
    constructor ()
      ensures Valid()
      ensures pipelineState == Flush
      ensures Banks() == Banked(seq(16, _ => 0), seq(7, _ => 0), seq(7, _ => 0),
                                seq(2, _ => 0), seq(2, _ => 0), seq(2, _ => 0), seq(2, _ => 0))
      ensures Status() == Psr(false, false, false, false, false, false, false, SYS)
    {
      r := new bv32[16];
      rUsr := new bv32[7];
      rIrq := new bv32[2];
      rFiq := new bv32[7];
      rSvc := new bv32[2];
      rAbt := new bv32[2];
      rUnd := new bv32[2];
      mode := SYS;
      pipelineState := Flush;
      new;
      Reset();
    }

    /**
     * The `Cpsr` setter: the flags and the mode are assigned first, then
     * `CheckMode` may throw.
     */
    method SetCpsr(value: bv32) returns (res: CpsrOutcome)
      requires Valid()
      modifies this`flagN, this`flagZ, this`flagC, this`flagV, this`flagI, this`flagF, this`flagT, this`mode
      ensures Valid()
      ensures Status() == UnpackCpsr(value)
      ensures res == CheckMode(value & 0x1f)
    {
      flagN := CsBitUtils.BitTest32(value, 31);
      flagZ := CsBitUtils.BitTest32(value, 30);
      flagC := CsBitUtils.BitTest32(value, 29);
      flagV := CsBitUtils.BitTest32(value, 28);
      flagI := CsBitUtils.BitTest32(value, 7);
      flagF := CsBitUtils.BitTest32(value, 6);
      flagT := CsBitUtils.BitTest32(value, 5);
      mode := value & 0x1f;
      res := CheckMode(mode);
    }

    /**
     * `ChangeMode(newMode)`. `outOfRange` reports the exception raised when
     * the outgoing mode has a two-register bank; the mode is then unchanged.
     */
    method ChangeMode(newMode: bv32) returns (outOfRange: bool)
      requires Valid() && newMode < 32
      modifies this`mode, r, rUsr, rFiq
      ensures Valid()
      ensures ChangeModeSpec(old(Banks()), old(mode), newMode) ==
              (if outOfRange then OutOfRange(Banks()) else Changed(Banks()))
      ensures mode == if outOfRange then old(mode) else newMode
    {
      outOfRange := SaveCurrentBank();
      if outOfRange {
        return;
      }
      LoadBankOf(newMode);
      mode := newMode;
    }

    /** The first switch of `ChangeMode`, on the current mode. */
    method SaveCurrentBank() returns (outOfRange: bool)
      requires Valid()
      modifies rUsr, rFiq
      ensures Valid()
      ensures SaveBank(old(Banks()), mode) ==
              (if outOfRange then OutOfRange(Banks()) else Changed(Banks()))
    {
      ghost var b0 := Banks();
      if UsesUserBank(mode) {
        forall k | 0 <= k < 7 { rUsr[k] := r[8 + k]; }
        assert Banks() == b0.(usr := b0.r[8..15]);
        outOfRange := false;
      } else if UsesFiqBank(mode) {
        forall k | 0 <= k < 7 { rFiq[k] := r[8 + k]; }
        assert Banks() == b0.(fiq := b0.r[8..15]);
        outOfRange := false;
      } else if HasShortBank(mode) {
        forall k | 0 <= k < 5 { rUsr[k] := r[8 + k]; }
        assert Banks() == b0.(usr := b0.r[8..13] + b0.usr[5..]);
        outOfRange := true;
      } else {
        outOfRange := false;
      }
    }

    /** The second switch of `ChangeMode`, on the new mode. */
    method LoadBankOf(newMode: bv32)
      requires Valid()
      modifies r
      ensures Valid()
      ensures Banks() == LoadBank(old(Banks()), newMode)
    {
      if UsesUserBank(newMode) {
        LoadHigh(rUsr, rUsr);
      } else if UsesFiqBank(newMode) {
        LoadHigh(rFiq, rFiq);
      } else if HasShortBank(newMode) {
        var bank := if newMode == IRQ_OLD || newMode == IRQ then rIrq
                    else if newMode == SVC_OLD || newMode == SVC then rSvc
                    else if newMode == ABT then rAbt
                    else rUnd;
        LoadHigh(rUsr, bank);
      }
    }

    /**
     * r8-r12 from `low` and r13, r14 from the last two elements of `top`
     * (the same seven-register bank, or a two-register one).
     */
    method LoadHigh(low: array<bv32>, top: array<bv32>)
      requires Valid() && low.Length == 7 && top.Length >= 2
      requires low != r && top != r
      modifies r
      ensures Valid()
      ensures r[..] == old(r[..8]) + low[..5] + top[top.Length - 2..] + old(r[15..])
    {
      forall k | 0 <= k < 5 { r[8 + k] := low[k]; }
      r[13] := top[top.Length - 2];
      r[14] := top[top.Length - 1];
    }

    /** `Reset`: every register and flag cleared, mode SYS; SPSRs and pipeline untouched. */
    method Reset()
      requires Valid()
      modifies this`flagN, this`flagZ, this`flagC, this`flagV, this`flagI, this`flagF, this`flagT, this`mode
      modifies r, rUsr, rIrq, rFiq, rSvc, rAbt, rUnd
      ensures Valid()
      ensures Banks() == Banked(seq(16, _ => 0), seq(7, _ => 0), seq(7, _ => 0),
                                seq(2, _ => 0), seq(2, _ => 0), seq(2, _ => 0), seq(2, _ => 0))
      ensures Status() == Psr(false, false, false, false, false, false, false, SYS)
    {
      Zero(rIrq);
      Zero(rSvc);
      Zero(rAbt);
      Zero(rUnd);
      Zero(rFiq);
      Zero(rUsr);
      Zero(r);
      flagN, flagZ, flagC, flagV := false, false, false, false;
      flagI, flagF, flagT := false, false, false;
      mode := SYS;
    }

    /** `Fetch`: a halfword in Thumb state, a word otherwise; r15 moves on by the opcode size. */
    method Fetch(fetchAddress: bv32, read16: bv32 -> bv16, read32: bv32 -> bv32)
      requires Valid()
      modifies this`fetchedOpcodeThumb, this`fetchedOpcodeArm, r
      ensures Valid()
      ensures r[..] == old(r[..])[15 := NextPc(old(r[15]), flagT)]
      ensures flagT ==> fetchedOpcodeThumb == read16(fetchAddress) && fetchedOpcodeArm == old(fetchedOpcodeArm)
      ensures !flagT ==> fetchedOpcodeArm == read32(fetchAddress) && fetchedOpcodeThumb == old(fetchedOpcodeThumb)
    {
      if flagT {
        fetchedOpcodeThumb := read16(fetchAddress);
        r[15] := r[15] + 2;
      } else {
        fetchedOpcodeArm := read32(fetchAddress);
        r[15] := r[15] + 4;
      }
    }

    /**
     * `Cycle`: the fetch address is r15 before the step; `Execute` and
     * `Decode` do nothing; the fetch is unconditional; the pipeline state
     * then advances.
     */
    method Cycle(read16: bv32 -> bv16, read32: bv32 -> bv32)
      requires Valid()
      modifies this`fetchedOpcodeThumb, this`fetchedOpcodeArm, this`pipelineState, r
      ensures Valid()
      ensures pipelineState == Advance(old(pipelineState))
      ensures r[..] == old(r[..])[15 := NextPc(old(r[15]), flagT)]
      ensures flagT ==> fetchedOpcodeThumb == read16(old(r[15]))
      ensures !flagT ==> fetchedOpcodeArm == read32(old(r[15]))
    {
      var fetchAddress := r[15];
      Fetch(fetchAddress, read16, read32);
      match pipelineState
      case Flush => pipelineState := PipelineState.Fetch;
      case Fetch => pipelineState := PipelineState.Decode;
      case Decode => pipelineState := PipelineState.Execute;
      case Execute =>
    }
  }
}
