// The C# emulator's top-level `GBA` object (src/GBA/GBA.cs): the interrupt
// flag register it raises and acknowledges on behalf of the components, and
// the order in which one system cycle steps the DMA, the CPU, the PPU and the
// timers.

module CsGba {
  import opened Bits
  import opened CsIo
  import CsCpu
  import CsPpu
  import CsTimer

  /** The largest cartridge image `GBA` loads (the BIOS and work RAM sizes are in `CsWram`). */
  const MAX_ROM_FILE_SIZE: nat := 33554432

  /** IF, the interrupt request flags, at 0x04000202. */
  const IF_ADDRESS: bv32 := 0x0400_0202
  const DISPSTAT_ADDRESS: bv32 := 0x0400_0004
  const VCOUNT_ADDRESS: bv32 := 0x0400_0006

  /** `GetRegister` takes the three fixed addresses `GBA` and `PPU` use to their table slots. */
  lemma FixedAddresses()
    ensures GetRegister(IF_ADDRESS) == Table(IF_SLOT) && Target(IF_ADDRESS) == Table(IF_SLOT)
    ensures GetRegister(DISPSTAT_ADDRESS) == Table(DISPSTAT_SLOT)
    ensures GetRegister(VCOUNT_ADDRESS) == Table(VCOUNT_SLOT)
  {
  }

  /** The value of register `ref` replaced, bypassing its write mask (an assignment to `Register.Value`). */
  function SetValueSpec(s: IoState, ref: RegisterRef, v: bv16): IoState
    requires WellFormed(s) && InRange(ref)
  {
    Put(s, ref, Get(s, ref).(value := v))
  }

  function IfValue(s: IoState): bv16
    requires WellFormed(s)
  {
    s.registers[IF_SLOT].value
  }

  /** `value |= flag`. */
  function Raise(value: bv16, flag: bv16): bv16 { value | flag }

  /** `value &= (ushort)~flag`. */
  function Clear(value: bv16, flag: bv16): bv16 { value & !flag }

  /** `SetInterruptFlag`: `flag` OR-ed into IF's value. */
  function SetInterruptFlagSpec(s: IoState, flag: bv16): IoState
    requires WellFormed(s)
  {
    SetValueSpec(s, Table(IF_SLOT), Raise(IfValue(s), flag))
  }

  /** `WriteToIF`: the bits of `flag` cleared in IF's value; the address is not used. */
  function WriteToIFSpec(s: IoState, addr: bv32, flag: bv16): IoState
    requires WellFormed(s)
  {
    SetValueSpec(s, Table(IF_SLOT), Clear(IfValue(s), flag))
  }

  /** Every flag of `flags` OR-ed in, in order (the timers' raised interrupts). */
  function SetInterruptFlags(s: IoState, flags: seq<bv16>): (s': IoState)
    requires WellFormed(s)
    ensures WellFormed(s')
    decreases |flags|
  {
    if flags == [] then s else SetInterruptFlags(SetInterruptFlagSpec(s, flags[0]), flags[1..])
  }

  /** The union of a sequence of flag masks. */
  function Union(flags: seq<bv16>): bv16
    decreases |flags|
  {
    if flags == [] then 0 else Raise(flags[0], Union(flags[1..]))
  }

  // ------------------------------------------------ properties of the IF updates

  /** A direct value assignment keeps every register's masks and callback. */
  lemma SetValueConforms(s: IoState, ref: RegisterRef, v: bv16)
    requires Conforms(s) && InRange(ref)
    ensures Conforms(SetValueSpec(s, ref, v))
  {
    var s' := SetValueSpec(s, ref, v);
    forall i | 0 <= i < 512
      ensures SameShape(s'.registers[i], InitialRegister(i))
    {
      GetPut(s, ref, Get(s, ref).(value := v), Table(i));
    }
  }

  /** Only the value of the assigned register changes. */
  lemma SetValueOthers(s: IoState, ref: RegisterRef, v: bv16, other: RegisterRef)
    requires WellFormed(s) && InRange(ref) && InRange(other) && other != ref
    ensures Get(SetValueSpec(s, ref, v), other) == Get(s, other)
  {
    GetPut(s, ref, Get(s, ref).(value := v), other);
  }

  /** Assigning a register twice is assigning the second value. */
  lemma SetValueTwice(s: IoState, ref: RegisterRef, a: bv16, b: bv16)
    requires WellFormed(s) && InRange(ref)
    ensures SetValueSpec(SetValueSpec(s, ref, a), ref, b) == SetValueSpec(s, ref, b)
  {
  }

  lemma IfAfterSet(s: IoState, v: bv16)
    requires WellFormed(s)
    ensures IfValue(SetValueSpec(s, Table(IF_SLOT), v)) == v
  {
  }

  lemma RaiseAssociates(v: bv16, f: bv16, g: bv16)
    ensures Raise(Raise(v, f), g) == Raise(v, Raise(f, g))
  {
  }

  lemma RaiseTwiceSame(v: bv16, f: bv16)
    ensures Raise(Raise(v, f), f) == Raise(v, f)
  {
  }

  lemma RaiseSymmetric(f: bv16, g: bv16)
    ensures Raise(f, g) == Raise(g, f)
  {
  }

  lemma RaiseZero(v: bv16)
    ensures Raise(v, 0) == v
  {
  }

  lemma ClearIsMasking(v: bv16, f: bv16)
    ensures Clear(v, f) == v & !f
  {
  }

  lemma RaiseThenMask(v: bv16, f: bv16)
    ensures Raise(v, f) & !f == Clear(v, f)
  {
  }

  lemma ClearAfterRaise(v: bv16, f: bv16)
    ensures Clear(Raise(v, f), f) == Clear(v, f)
  {
    ClearIsMasking(Raise(v, f), f);
    RaiseThenMask(v, f);
  }

  /** Raising sets every bit of `flag` in IF and keeps IF's other bits. */
  lemma RaiseSetsFlag(s: IoState, flag: bv16)
    requires WellFormed(s)
    ensures IfValue(SetInterruptFlagSpec(s, flag)) & flag == flag
    ensures IfValue(SetInterruptFlagSpec(s, flag)) & !flag == IfValue(s) & !flag
  {
  }

  /** Raising a flag twice is raising it once. */
  lemma RaiseIdempotent(s: IoState, flag: bv16)
    requires WellFormed(s)
    ensures SetInterruptFlagSpec(SetInterruptFlagSpec(s, flag), flag) == SetInterruptFlagSpec(s, flag)
  {
    var v := IfValue(s);
    IfAfterSet(s, Raise(v, flag));
    SetValueTwice(s, Table(IF_SLOT), Raise(v, flag), Raise(Raise(v, flag), flag));
    RaiseTwiceSame(v, flag);
  }

  /** Raising two flags one after the other is raising their union at once. */
  lemma RaiseTwice(s: IoState, f: bv16, g: bv16)
    requires WellFormed(s)
    ensures SetInterruptFlagSpec(SetInterruptFlagSpec(s, f), g) == SetInterruptFlagSpec(s, Raise(f, g))
  {
    var v := IfValue(s);
    IfAfterSet(s, Raise(v, f));
    SetValueTwice(s, Table(IF_SLOT), Raise(v, f), Raise(Raise(v, f), g));
    RaiseAssociates(v, f, g);
  }

  /** The order in which components raise interrupts does not matter. */
  lemma RaiseCommutes(s: IoState, f: bv16, g: bv16)
    requires WellFormed(s)
    ensures SetInterruptFlagSpec(SetInterruptFlagSpec(s, f), g) == SetInterruptFlagSpec(SetInterruptFlagSpec(s, g), f)
  {
    RaiseTwice(s, f, g);
    RaiseTwice(s, g, f);
    RaiseSymmetric(f, g);
  }

  lemma RaiseNothing(s: IoState)
    requires WellFormed(s)
    ensures SetInterruptFlagSpec(s, 0) == s
  {
    RaiseZero(IfValue(s));
    assert s.registers[IF_SLOT := s.registers[IF_SLOT]] == s.registers;
  }

  /** Raising a sequence of flags is raising their union. */
  lemma {:induction false} RaiseAll(s: IoState, flags: seq<bv16>)
    requires WellFormed(s)
    ensures SetInterruptFlags(s, flags) == SetInterruptFlagSpec(s, Union(flags))
    decreases |flags|
  {
    if flags == [] {
      RaiseNothing(s);
    } else {
      RaiseAll(SetInterruptFlagSpec(s, flags[0]), flags[1..]);
      RaiseTwice(s, flags[0], Union(flags[1..]));
    }
  }

  /** Acknowledging clears exactly the bits written: those bits are 0 after it, the others unchanged. */
  lemma AcknowledgeClears(s: IoState, addr: bv32, flag: bv16)
    requires WellFormed(s)
    ensures IfValue(WriteToIFSpec(s, addr, flag)) & flag == 0
    ensures IfValue(WriteToIFSpec(s, addr, flag)) & !flag == IfValue(s) & !flag
  {
  }

  /** Acknowledging what was just raised leaves IF as it was, less those bits. */
  lemma AcknowledgeAfterRaise(s: IoState, addr: bv32, flag: bv16)
    requires WellFormed(s)
    ensures WriteToIFSpec(SetInterruptFlagSpec(s, flag), addr, flag) == WriteToIFSpec(s, addr, flag)
  {
    var v := IfValue(s);
    IfAfterSet(s, Raise(v, flag));
    SetValueTwice(s, Table(IF_SLOT), Raise(v, flag), Clear(Raise(v, flag), flag));
    ClearAfterRaise(v, flag);
  }

  // ------------------------------------------------- IF written through the bus

  /** What the callbacks a write returns do: `WriteToIF` acknowledges, the DMA stub only logs. */
  function PerformCalls(s: IoState, calls: seq<CallbackCall>): (s': IoState)
    requires WellFormed(s)
    ensures WellFormed(s')
    decreases |calls|
  {
    if calls == [] then s
    else
      var s1 := if calls[0].callback == WriteToIF then WriteToIFSpec(s, calls[0].addr, calls[0].value) else s;
      PerformCalls(s1, calls[1..])
  }

  /** A CPU store to IF: its write mask is 0, so only the callback acts. */
  function StoreIF(s: IoState, val: bv16): IoState
    requires WellFormed(s)
  {
    var w := Write16Spec(s, IF_ADDRESS, val);
    PerformCalls(w.state, w.calls)
  }

  /**
   * IF is write-one-to-clear: a 16-bit store of `val` to 0x04000202 clears
   * exactly the bits set in `val`, and changes no other register.
   */
  lemma StoreIFAcknowledges(s: IoState, val: bv16)
    requires Conforms(s)
    ensures StoreIF(s, val) == WriteToIFSpec(s, IF_ADDRESS, val)
  {
    FixedAddresses();
    assert SameShape(s.registers[IF_SLOT], InitialRegister(IF_SLOT));
    var reg := s.registers[IF_SLOT];
    assert reg.writeMask == 0 && reg.callback == WriteToIF;
    assert Merge(reg.value, 0, val) == reg.value;
    var w := Write16Spec(s, IF_ADDRESS, val);
    assert w.state.registers == s.registers;
    assert w.state == s;
    assert w.calls == [CallbackCall(WriteToIF, IF_ADDRESS, val)];
    assert PerformCalls(w.state, w.calls) == PerformCalls(WriteToIFSpec(s, IF_ADDRESS, val), []);
  }

  // ------------------------------------------------------------- one system cycle

  /** `(ushort)currentRow`. */
  function Row16(row: nat): bv16 {
    (row % 0x1_0000) as bv16
  }

  /** The PPU's register writes of one cycle: DISPSTAT, then VCOUNT when a row ended. */
  function PpuWrites(s: IoState, ds: bv16, vcount: Option<nat>): (s': IoState)
    requires WellFormed(s)
    ensures WellFormed(s')
  {
    var s1 := SetValueSpec(s, Table(DISPSTAT_SLOT), ds);
    if vcount.Some? then SetValueSpec(s1, Table(VCOUNT_SLOT), Row16(vcount.value)) else s1
  }

  /**
   * The register file after one system cycle: the PPU's DISPSTAT and VCOUNT
   * written back, the PPU's interrupts raised, then the timers' interrupts raised.
   */
  function CycleIoSpec(s: IoState, tick: CsPpu.Tick, raised: seq<bv16>): IoState
    requires WellFormed(s)
  {
    SetInterruptFlags(SetInterruptFlagSpec(PpuWrites(s, tick.dispstat, tick.vcount), tick.irq), raised)
  }

  /** The PPU's and the timers' interrupts of one cycle land in IF together, as one union. */
  lemma CycleRaisesUnion(s: IoState, tick: CsPpu.Tick, raised: seq<bv16>)
    requires WellFormed(s)
    ensures CycleIoSpec(s, tick, raised) ==
            SetInterruptFlagSpec(PpuWrites(s, tick.dispstat, tick.vcount), Raise(tick.irq, Union(raised)))
  {
    var s2 := PpuWrites(s, tick.dispstat, tick.vcount);
    RaiseAll(SetInterruptFlagSpec(s2, tick.irq), raised);
    RaiseTwice(s2, tick.irq, Union(raised));
  }

  /** The PPU's writes touch DISPSTAT and, when a row ended, VCOUNT, and only their values. */
  lemma PpuWritesEffect(s: IoState, ds: bv16, vcount: Option<nat>, i: nat)
    requires WellFormed(s) && i < 512
    ensures PpuWrites(s, ds, vcount).registers[i] ==
            if i == DISPSTAT_SLOT then s.registers[i].(value := ds)
            else if i == VCOUNT_SLOT && vcount.Some? then s.registers[i].(value := Row16(vcount.value))
            else s.registers[i]
  {
  }

  /**
   * A system cycle leaves IF holding its old bits plus every interrupt the
   * PPU and the timers raised, DISPSTAT the PPU's new status, VCOUNT the new
   * row when a row ended, and every other register as it was.
   */
  lemma CycleIoEffect(s: IoState, tick: CsPpu.Tick, raised: seq<bv16>, i: nat)
    requires WellFormed(s) && i < 512
    ensures CycleIoSpec(s, tick, raised).registers[i] ==
            if i == IF_SLOT then s.registers[i].(value := Raise(IfValue(s), Raise(tick.irq, Union(raised))))
            else if i == DISPSTAT_SLOT then s.registers[i].(value := tick.dispstat)
            else if i == VCOUNT_SLOT && tick.vcount.Some? then s.registers[i].(value := Row16(tick.vcount.value))
            else s.registers[i]
  {
    CycleRaisesUnion(s, tick, raised);
    PpuWritesEffect(s, tick.dispstat, tick.vcount, i);
    PpuWritesEffect(s, tick.dispstat, tick.vcount, IF_SLOT);
  }

  /** A system cycle keeps every register's masks and callback. */
  lemma CycleIoConforms(s: IoState, tick: CsPpu.Tick, raised: seq<bv16>)
    requires Conforms(s)
    ensures Conforms(CycleIoSpec(s, tick, raised))
  {
    var s1 := SetValueSpec(s, Table(DISPSTAT_SLOT), tick.dispstat);
    SetValueConforms(s, Table(DISPSTAT_SLOT), tick.dispstat);
    if tick.vcount.Some? {
      SetValueConforms(s1, Table(VCOUNT_SLOT), Row16(tick.vcount.value));
    }
    var s2 := PpuWrites(s, tick.dispstat, tick.vcount);
    CycleRaisesUnion(s, tick, raised);
    SetValueConforms(s2, Table(IF_SLOT), Raise(IfValue(s2), Raise(tick.irq, Union(raised))));
  }

  /** `class GBA`, holding the components a system cycle steps. */
  class Gba {
    const cpu: CsCpu.Cpu
    const ppu: CsPpu.Ppu
    const timer: CsTimer.Timer
    const io: Io

    ghost predicate Valid()
      reads this, cpu, ppu, ppu.palette, ppu.vram, ppu.oam, timer, io, io.registers
    {
      cpu.Valid() && ppu.Valid() && timer.Valid() && io.Valid()
    }

    /** The components `new GBA(..)` creates and the model covers, each in its initial state. */
    constructor ()
      ensures Valid()
      ensures io.State() == InitialState()
      ensures ppu.Clock() == CsPpu.Timing(0, 0, 0)
      ensures timer.Channels() == [CsTimer.IDLE, CsTimer.IDLE, CsTimer.IDLE, CsTimer.IDLE]
    {
      cpu := new CsCpu.Cpu();
      ppu := new CsPpu.Ppu();
      timer := new CsTimer.Timer();
      io := new Io();
    }

    /** `SetInterruptFlag`. */
    method SetInterruptFlag(flag: bv16)
      requires io.Valid()
      modifies io, io.registers
      ensures io.Valid()
      ensures io.State() == SetInterruptFlagSpec(old(io.State()), flag)
    {
      var current := io.Fetch(Table(IF_SLOT));
      io.SetValue(Table(IF_SLOT), Raise(current.value, flag));
      SetValueConforms(old(io.State()), Table(IF_SLOT), Raise(current.value, flag));
    }

    /** `WriteToIF`, the callback of the IF register. */
    method WriteToIF(addr: bv32, flag: bv16)
      requires io.Valid()
      modifies io, io.registers
      ensures io.Valid()
      ensures io.State() == WriteToIFSpec(old(io.State()), addr, flag)
    {
      var current := io.Fetch(Table(IF_SLOT));
      io.SetValue(Table(IF_SLOT), Clear(current.value, flag));
      SetValueConforms(old(io.State()), Table(IF_SLOT), Clear(current.value, flag));
    }

    /**
     * `Cycle`: the CPU steps unless the DMA unit took the cycle (`dmaActive`),
     * then the PPU steps on DISPSTAT and its results go into the registers,
     * then the timers step and their interrupts are raised. The CPU reads its
     * opcodes through `read16` and `read32`. Returns whether the PPU fired the
     * frame event and whether it drew a line.
     */
    method Cycle(dmaActive: bool, read16: bv32 -> bv16, read32: bv32 -> bv32) returns (frame: bool, drawLine: bool)
      requires Valid()
      modifies cpu`fetchedOpcodeThumb, cpu`fetchedOpcodeArm, cpu`pipelineState, cpu.r
      modifies ppu, timer.channels, io, io.registers
      ensures Valid()
      ensures dmaActive ==> cpu.pipelineState == old(cpu.pipelineState) && cpu.r[..] == old(cpu.r[..])
      ensures !dmaActive ==> cpu.pipelineState == CsCpu.Advance(old(cpu.pipelineState))
      ensures !dmaActive ==> cpu.r[..] == old(cpu.r[..])[15 := CsCpu.NextPc(old(cpu.r[15]), cpu.flagT)]
      ensures var tick := CsPpu.CycleSpec(old(ppu.Clock()), old(io.State()).registers[DISPSTAT_SLOT].value);
              ppu.Clock() == tick.timing && frame == tick.frame && drawLine == tick.drawLine
      ensures timer.Channels() == CsTimer.CycleSpec(old(timer.Channels()), timer.cycleCounter).channels
      ensures io.State() == CycleIoSpec(old(io.State()),
                                        CsPpu.CycleSpec(old(ppu.Clock()), old(io.State()).registers[DISPSTAT_SLOT].value),
                                        CsTimer.CycleSpec(old(timer.Channels()), timer.cycleCounter).raised)
    {
      CpuStep(dmaActive, read16, read32);
      frame, drawLine := PpuStep();
      TimerStep();
    }

    /** The CPU's part of `Cycle`: it steps unless the DMA unit took the cycle. */
    method CpuStep(dmaActive: bool, read16: bv32 -> bv16, read32: bv32 -> bv32)
      requires Valid()
      modifies cpu`fetchedOpcodeThumb, cpu`fetchedOpcodeArm, cpu`pipelineState, cpu.r
      ensures Valid()
      ensures dmaActive ==> cpu.pipelineState == old(cpu.pipelineState) && cpu.r[..] == old(cpu.r[..])
      ensures !dmaActive ==> cpu.pipelineState == CsCpu.Advance(old(cpu.pipelineState))
      ensures !dmaActive ==> cpu.r[..] == old(cpu.r[..])[15 := CsCpu.NextPc(old(cpu.r[15]), cpu.flagT)]
      ensures io.State() == old(io.State()) && ppu.Clock() == old(ppu.Clock()) && timer.Channels() == old(timer.Channels())
    {
      if !dmaActive {
        cpu.Cycle(read16, read32);
      }
    }

    /** The PPU's part of `Cycle`: it steps on DISPSTAT, and its results go into the registers. */
    method PpuStep() returns (frame: bool, drawLine: bool)
      requires Valid()
      modifies ppu, io, io.registers
      ensures Valid()
      ensures var tick := CsPpu.CycleSpec(old(ppu.Clock()), old(io.State()).registers[DISPSTAT_SLOT].value);
              ppu.Clock() == tick.timing && frame == tick.frame && drawLine == tick.drawLine &&
              io.State() == SetInterruptFlagSpec(PpuWrites(old(io.State()), tick.dispstat, tick.vcount), tick.irq)
      ensures timer.Channels() == old(timer.Channels())
      ensures cpu.pipelineState == old(cpu.pipelineState) && cpu.r[..] == old(cpu.r[..])
    {
      var ds, vcount, irq;
      var dispstat := io.Fetch(Table(DISPSTAT_SLOT));
      ds, vcount, irq, frame, drawLine := ppu.Cycle(dispstat.value);
      PpuResults(ds, vcount, irq);
    }

    /** The timers' part of `Cycle`: every channel steps, then their interrupts are raised. */
    method TimerStep()
      requires Valid()
      modifies timer.channels, io, io.registers
      ensures Valid()
      ensures var ticked := CsTimer.CycleSpec(old(timer.Channels()), timer.cycleCounter);
              timer.Channels() == ticked.channels && io.State() == SetInterruptFlags(old(io.State()), ticked.raised)
      ensures ppu.Clock() == old(ppu.Clock())
      ensures cpu.pipelineState == old(cpu.pipelineState) && cpu.r[..] == old(cpu.r[..])
    {
      var raised := timer.Cycle();
      RaiseEach(raised);
    }

    /** The PPU's writes of one cycle: DISPSTAT, VCOUNT when a row ended, then its interrupts. */
    method PpuResults(ds: bv16, vcount: Option<nat>, irq: bv16)
      requires io.Valid()
      modifies io, io.registers
      ensures io.Valid()
      ensures io.State() == SetInterruptFlagSpec(PpuWrites(old(io.State()), ds, vcount), irq)
    {
      ghost var s := io.State();
      io.SetValue(Table(DISPSTAT_SLOT), ds);
      SetValueConforms(s, Table(DISPSTAT_SLOT), ds);
      if vcount.Some? {
        ghost var s1 := io.State();
        io.SetValue(Table(VCOUNT_SLOT), Row16(vcount.value));
        SetValueConforms(s1, Table(VCOUNT_SLOT), Row16(vcount.value));
      }
      SetInterruptFlag(irq);
    }

    /** The timers' interrupts, raised one by one. */
    method RaiseEach(raised: seq<bv16>)
      requires io.Valid()
      modifies io, io.registers
      ensures io.Valid()
      ensures io.State() == SetInterruptFlags(old(io.State()), raised)
    {
      ghost var s := io.State();
      for k := 0 to |raised|
        invariant io.Valid()
        invariant SetInterruptFlags(io.State(), raised[k..]) == SetInterruptFlags(s, raised)
      {
        assert raised[k..][1..] == raised[k + 1..];
        SetInterruptFlag(raised[k]);
      }
    }
  }
}
