// src/core/dma.c: the four DMA channels of the C core. A CNT_H write
// latches a channel's controls and (re)loads its addresses and count from
// its I/O registers; a running channel moves one unit per `gba_dma_cycle`,
// counting its word count down, and on reaching zero finishes: it repeats
// (reloading the count, and the destination in increment-reload mode) or
// disables itself, and raises its interrupt if asked. The VBlank and HBlank
// hooks start enabled channels that wait for them.
//
// The bus transfer, the I/O registers and the interrupt flag belong to
// other files: register values are a parameter `regs` (the `value` of
// `gba_io_getRegister(address)`), and an operation returns, in order, the
// transfers it asks of the bus, the enable bits it clears in CNT_H
// registers, and the interrupt flags it raises.

module CDma {
  import opened Bits

  /** The address controls (bits 6:5 and 8:7 of CNT_H). */
  const INCREMENT: bv16 := 0
  const DECREMENT: bv16 := 1
  const FIXED: bv16 := 2
  /** Increment-reload for the destination; prohibited, and treated as increment, for the source. */
  const INCREMENT_RELOAD: bv16 := 3

  /** The start timings. */
  const IMMEDIATELY: bv16 := 0
  const VBLANK: bv16 := 1
  const HBLANK: bv16 := 2
  const SPECIAL: bv16 := 3

  /** The controls a CNT_H write latches. */
  datatype Controls = Controls(dac: bv16, sac: bv16, repeat: bool, wide: bool, drq: bool,
                               startTiming: bv16, irq: bool, enabled: bool)

  /** The addresses and the count of a transfer. */
  datatype Transfer = Transfer(source: bv32, dest: bv32, wordCount: bv32)

  /** `gba_dma_channel_t`. */
  datatype Channel = Channel(index: nat, iobase: bv32, xfer: Transfer, ctl: Controls, running: bool)

  /** The zero-initialised global. */
  const ZERO: Channel := Channel(0, 0, Transfer(0, 0, 0), Controls(0, 0, false, false, false, 0, false, false), false)

  /** What an operation asks of the rest of the system. */
  datatype Effect =
    | Copy(from: bv32, to: bv32, word: bool)   // `gba_bus_write16/32(to, gba_bus_read16/32(from))`
    | ClearEnable(register: bv32)              // `gba_io_getRegister(register)->value &= 0x7fff`
    | Interrupt(flag: bv16)                    // `gba_setInterruptFlag(flag)`

  datatype Stepped = Stepped(channel: Channel, effects: seq<Effect>)

  /** `0x040000b0 + index * 12`: the SAD_L register of channel `index`. */
  function IoBase(index: nat): bv32
    requires index < 4
  {
    if index == 0 then 0x0400_00b0 else if index == 1 then 0x0400_00bc
    else if index == 2 then 0x0400_00c8 else 0x0400_00d4
  }

  lemma IoBases(index: nat)
    requires index < 4
    ensures Unsigned(IoBase(index)) == 0x0400_00b0 + 12 * index
  {
    var b := IoBase(index);
    if index == 0 { assert Unsigned(0x0400_00b0) == 0x0400_00b0; }
    else if index == 1 { assert Unsigned(0x0400_00bc) == 0x0400_00bc; }
    else if index == 2 { assert Unsigned(0x0400_00c8) == 0x0400_00c8; }
    else { assert Unsigned(0x0400_00d4) == 0x0400_00d4; }
  }

  /** The register `offset` bytes above a channel's base. */
  function Register(iobase: bv32, offset: bv32): bv32 {
    iobase + offset
  }

  /** `1 << (index + 8)`: channel `index` owns interrupt bit `index + 8`. */
  function IrqFlag(index: nat): bv16 {
    if index < 8 then 1 << (index + 8) else 0
  }

  // -------------------------------------------------------------------
  // Reloading from the registers

  /** `gba_dma_channel_reloadWordCount`: CNT_L, where 0 stands for 0x10000 on channel 3's base and 0x4000 elsewhere. */
  function ReloadWordCount(iobase: bv32, regs: bv32 -> bv16): bv32 {
    CountOf(regs(Register(iobase, 8)), iobase == 0x0400_00d4)
  }

  /** The count a CNT_L value stands for, on channel 3 (`dma3`) or another. */
  function CountOf(count: bv16, dma3: bool): bv32 {
    if count != 0 then count as bv32
    else if dma3 then 0x1_0000
    else 0x4000
  }

  /** `gba_dma_channel_reloadSourceAddress`: SAD_H:SAD_L. */
  function ReloadSource(iobase: bv32, regs: bv32 -> bv16): bv32 {
    Join16(regs(iobase), regs(Register(iobase, 2)))
  }

  /** `gba_dma_channel_reloadDestinationAddress`: DAD_H:DAD_L. */
  function ReloadDest(iobase: bv32, regs: bv32 -> bv16): bv32 {
    Join16(regs(Register(iobase, 4)), regs(Register(iobase, 6)))
  }

  /** `gba_dma_channel_reloadRegisters(channel, repeat)`: a repeat reloads the count, and the destination in increment-reload mode. */
  function Reload(x: Transfer, iobase: bv32, dac: bv16, regs: bv32 -> bv16, repeat: bool): Transfer {
    if repeat then
      x.(dest := if dac == INCREMENT_RELOAD then ReloadDest(iobase, regs) else x.dest,
         wordCount := ReloadWordCount(iobase, regs))
    else
      Transfer(ReloadSource(iobase, regs), ReloadDest(iobase, regs), ReloadWordCount(iobase, regs))
  }

  /** A reloaded count is never 0 and at most 0x10000. */
  lemma ReloadWordCountInRange(iobase: bv32, regs: bv32 -> bv16)
    ensures CountInRange(ReloadWordCount(iobase, regs))
  {
    CountOfInRange(regs(Register(iobase, 8)), iobase == 0x0400_00d4);
  }

  lemma CountOfInRange(count: bv16, dma3: bool)
    ensures CountInRange(CountOf(count, dma3))
  {
    if count != 0 {
      WidenedInRange(count);
    } else {
      DefaultsInRange();
    }
  }

  lemma WidenedInRange(h: bv16)
    requires h != 0
    ensures CountInRange(h as bv32)
  {
  }

  lemma DefaultsInRange()
    ensures CountInRange(0x1_0000) && CountInRange(0x4000)
  {
  }

  /** A word count a running channel can have. */
  predicate CountInRange(n: bv32) {
    0 < n <= 0x1_0000
  }

  /** A zero CNT_L means 0x10000 units on channel 3 and 0x4000 on the others. */
  lemma ZeroCountMeansMaximum(index: nat, regs: bv32 -> bv16)
    requires index < 4 && regs(Register(IoBase(index), 8)) == 0
    ensures ReloadWordCount(IoBase(index), regs) == if index == 3 then 0x1_0000 else 0x4000
  {
  }

  // -------------------------------------------------------------------
  // The CNT_H write

  /** The controls of a CNT_H value, with the start timing `timing`. */
  function Latch(value: bv16, timing: bv16): Controls {
    Controls(Field(value, 0x0060, 5), Field(value, 0x0180, 7), Flag(value, 0x0200), Flag(value, 0x0400),
             Flag(value, 0x0800), timing, Flag(value, 0x4000), Flag(value, 0x8000))
  }

  /** `(value & mask) != 0`. */
  predicate Flag(value: bv16, mask: bv16) {
    value & mask != 0
  }

  /** `(value & mask) >> shift`. */
  function Field(value: bv16, mask: bv16, shift: bv16): bv16
    requires shift < 16
  {
    (value & mask) >> shift
  }

  /** `channel->startTiming = (value & (1 << 12)) != 0`: a boolean, so only bit 12 counts. */
  function TimingAsWritten(value: bv16): bv16 {
    if Flag(value, 0x1000) then VBLANK else IMMEDIATELY
  }

  /** The start timing field, bits 13:12. */
  function Timing(value: bv16): bv16 {
    Field(value, 0x3000, 12)
  }

  /**
   * `gba_dma_writeCallback_cntH` as written: a write that clears the
   * enable bit of an enabled channel stops it; every other write reloads
   * the registers and starts the channel if its timing is immediate --
   * with the enable bit clear as well as set.
   */
  function CntHAsWritten(c: Channel, value: bv16, regs: bv32 -> bv16): Channel {
    var k := Latch(value, TimingAsWritten(value));
    if c.ctl.enabled && !k.enabled then c.(ctl := k, running := false)
    else Start(c.(ctl := k, xfer := Reload(c.xfer, c.iobase, k.dac, regs, false)))
  }

  /** The CNT_H write as intended: the timing is bits 13:12, and a write with the enable bit clear stops the channel. */
  function CntHSpec(c: Channel, value: bv16, regs: bv32 -> bv16): Channel {
    var k := Latch(value, Timing(value));
    if !k.enabled then c.(ctl := k, running := false)
    else Start(c.(ctl := k, xfer := Reload(c.xfer, c.iobase, k.dac, regs, false)))
  }

  /** `if(channel->startTiming == GBA_DMA_CHANNEL_STARTTIMING_IMMEDIATELY) channel->running = true`. */
  function Start(c: Channel): Channel {
    if c.ctl.startTiming == IMMEDIATELY then c.(running := true) else c
  }

  // -------------------------------------------------------------------
  // Transfers

  /** An address after one unit: up, down or fixed; the fourth control counts up. */
  function Advance(addr: bv32, control: bv16, word: bool): bv32 {
    var w: bv32 := if word then 4 else 2;
    if control == DECREMENT then addr - w
    else if control == FIXED then addr
    else addr + w
  }

  /** The addresses and the count after one unit. */
  function Move(x: Transfer, k: Controls): Transfer {
    Transfer(Advance(x.source, k.sac, k.wide), Advance(x.dest, k.dac, k.wide), Dec(x.wordCount))
  }

  /** `gba_dma_channel_finish`: repeat, or disable and clear the enable bit of CNT_H; then the interrupt. */
  function FinishSpec(c: Channel, regs: bv32 -> bv16): Stepped {
    var d := if c.ctl.repeat then Start(c.(xfer := Reload(c.xfer, c.iobase, c.ctl.dac, regs, true), running := false))
             else c.(ctl := c.ctl.(enabled := false), running := false);
    var effects := (if c.ctl.repeat then [] else [ClearEnable(Register(c.iobase, 10))]) +
                   (if c.ctl.irq then [Interrupt(IrqFlag(c.index))] else []);
    Stepped(d, effects)
  }

  /** `gba_dma_channel_cycle`: a running channel copies one unit, advances both addresses and counts down. */
  function ChannelCycleSpec(c: Channel, regs: bv32 -> bv16): Stepped
    requires c.running
  {
    var copy := Copy(c.xfer.source, c.xfer.dest, c.ctl.wide);
    var moved := c.(xfer := Move(c.xfer, c.ctl));
    if moved.xfer.wordCount == 0 then
      var f := FinishSpec(moved, regs);
      Stepped(f.channel, [copy] + f.effects)
    else Stepped(moved, [copy])
  }

  /** `wordCount--`. */
  function Dec(n: bv32): bv32 {
    n - 1
  }

  /** The first running channel from `i` on: `gba_dma_cycle` serves only that one. */
  function FirstRunning(chs: seq<Channel>, i: nat): (r: Option<nat>)
    requires i <= |chs|
    ensures r.Some? ==> i <= r.value < |chs| && chs[r.value].running &&
                        forall k :: i <= k < r.value ==> !chs[k].running
    ensures r.None? ==> forall k :: i <= k < |chs| ==> !chs[k].running
    decreases |chs| - i
  {
    if i == |chs| then None
    else if chs[i].running then Some(i)
    else FirstRunning(chs, i + 1)
  }

  /** `gba_dma_cycle`: whether a channel was busy, the channels afterwards, and the requests. */
  function CycleSpec(chs: seq<Channel>, regs: bv32 -> bv16): (bool, seq<Channel>, seq<Effect>) {
    match FirstRunning(chs, 0)
    case None => (false, chs, [])
    case Some(i) =>
      var s := ChannelCycleSpec(chs[i], regs);
      (true, chs[i := s.channel], s.effects)
  }

  /** The VBlank and HBlank hooks: an enabled channel that is not running, and waits for `timing`, starts. */
  function Trigger(c: Channel, timing: bv16): Channel {
    if c.ctl.enabled && !c.running && c.ctl.startTiming == timing then c.(running := true) else c
  }

  // -------------------------------------------------------------------
  // Invariants

  /** A channel that is enabled or running has a count in range. */
  predicate Counting(c: Channel) {
    (c.ctl.enabled || c.running) ==> CountInRange(c.xfer.wordCount)
  }

  /** A running channel is enabled. */
  predicate Consistent(c: Channel) {
    c.running ==> c.ctl.enabled
  }

  /** Both CNT_H writes keep `Counting`: a write either reloads the count or leaves the channel disabled and stopped. */
  lemma CntHKeepsCounting(c: Channel, value: bv16, regs: bv32 -> bv16)
    ensures Counting(CntHAsWritten(c, value, regs)) && Counting(CntHSpec(c, value, regs))
  {
    ReloadWordCountInRange(c.iobase, regs);
  }

  /** A cycle keeps `Counting`: the count of a running channel never wraps below zero. */
  lemma CycleKeepsCounting(c: Channel, regs: bv32 -> bv16)
    requires c.running && Counting(c)
    ensures Counting(ChannelCycleSpec(c, regs).channel)
  {
    if Dec(c.xfer.wordCount) != 0 {
      CountDown(c.xfer.wordCount);
    } else if c.ctl.repeat {
      ReloadWordCountInRange(c.iobase, regs);
    }
  }

  lemma CountDown(n: bv32)
    requires CountInRange(n) && Dec(n) != 0
    ensures CountInRange(Dec(n))
  {
  }

  /** The hooks keep `Counting` and `Consistent`. */
  lemma TriggerKeeps(c: Channel, timing: bv16)
    ensures Counting(c) ==> Counting(Trigger(c, timing))
    ensures Consistent(c) ==> Consistent(Trigger(c, timing))
  {
  }

  /** The intended CNT_H write leaves no channel running without being enabled. */
  lemma CntHSpecConsistent(c: Channel, value: bv16, regs: bv32 -> bv16)
    ensures Consistent(CntHSpec(c, value, regs))
  {
  }

  /** A cycle keeps a running channel enabled. */
  lemma CycleKeepsConsistent(c: Channel, regs: bv32 -> bv16)
    requires c.running && Consistent(c)
    ensures Consistent(ChannelCycleSpec(c, regs).channel)
  {
  }

  /** The written start timing is immediate or VBlank, never HBlank: no CNT_H write makes a channel wait for HBlank. */
  lemma TimingAsWrittenNeverHblank(c: Channel, value: bv16, regs: bv32 -> bv16)
    ensures CntHAsWritten(c, value, regs).ctl.startTiming != HBLANK
    ensures Trigger(CntHAsWritten(c, value, regs), HBLANK) == CntHAsWritten(c, value, regs)
  {
  }

  /**
   * Writing 0xa000 (enable, HBlank timing) to CNT_H of an idle channel
   * starts it at once, since the HBlank bit 13 is dropped and bit 12 is
   * clear; as intended it waits and the next HBlank starts it.
   */
  lemma HblankStartsAtOnce(c: Channel, regs: bv32 -> bv16)
    requires !c.ctl.enabled && !c.running
    ensures CntHAsWritten(c, 0xa000, regs).running
    ensures !CntHSpec(c, 0xa000, regs).running
    ensures Trigger(CntHSpec(c, 0xa000, regs), HBLANK).running
  {
    HblankValue();
  }

  lemma HblankValue()
    ensures Flag(0xa000, 0x8000) && !Flag(0xa000, 0x1000) && Timing(0xa000) == HBLANK
  {
  }

  /** As intended, the timing is the two-bit field of bits 13:12. */
  lemma TimingField(c: Channel, value: bv16, regs: bv32 -> bv16)
    ensures CntHSpec(c, value, regs).ctl.startTiming < 4
    ensures CntHSpec(c, value, regs).ctl.startTiming == HBLANK <==> value & 0x3000 == 0x2000
  {
    TimingBelow(value);
    TimingHblank(value);
  }

  lemma TimingBelow(value: bv16)
    ensures Timing(value) < 4
  {
  }

  lemma TimingHblank(value: bv16)
    ensures Timing(value) == HBLANK <==> value & 0x3000 == 0x2000
  {
  }

  /**
   * Writing 0 to CNT_H of an idle channel, enable bit clear, reloads it
   * and sets it running: a disabled channel copies up to 0x10000 units.
   */
  lemma DisabledWriteStarts(c: Channel, regs: bv32 -> bv16)
    requires !c.ctl.enabled
    ensures var d := CntHAsWritten(c, 0, regs);
            d.running && !d.ctl.enabled && CountInRange(d.xfer.wordCount)
  {
    ReloadWordCountInRange(c.iobase, regs);
    ZeroValue();
  }

  lemma ZeroValue()
    ensures !Flag(0, 0x8000) && TimingAsWritten(0) == IMMEDIATELY
  {
  }

  /** As intended, a write with the enable bit clear leaves the channel stopped. */
  lemma DisabledWriteStops(c: Channel, value: bv16, regs: bv32 -> bv16)
    requires !Flag(value, 0x8000)
    ensures !CntHSpec(c, value, regs).running && !CntHSpec(c, value, regs).ctl.enabled
  {
  }

  /** An enabling write loads the addresses and the count from the registers, and starts an immediate channel. */
  lemma EnableLoads(c: Channel, value: bv16, regs: bv32 -> bv16)
    requires Flag(value, 0x8000)
    ensures var d := CntHSpec(c, value, regs);
            d.ctl.enabled && d.xfer == Transfer(ReloadSource(c.iobase, regs), ReloadDest(c.iobase, regs), ReloadWordCount(c.iobase, regs)) &&
            (d.running <==> c.running || Timing(value) == IMMEDIATELY)
  {
  }

  // -------------------------------------------------------------------
  // Properties of a transfer

  /** A unit before the last: one copy from the source to the destination, both advanced, and the count one lower. */
  lemma CycleCountsDown(c: Channel, regs: bv32 -> bv16)
    requires c.running && Dec(c.xfer.wordCount) != 0
    ensures var s := ChannelCycleSpec(c, regs);
            s.effects == [Copy(c.xfer.source, c.xfer.dest, c.ctl.wide)] && s.channel.running && s.channel.ctl == c.ctl &&
            s.channel.xfer == Transfer(Advance(c.xfer.source, c.ctl.sac, c.ctl.wide), Advance(c.xfer.dest, c.ctl.dac, c.ctl.wide), Dec(c.xfer.wordCount))
  {
  }

  /** The last unit of a one-shot transfer disables the channel and clears the enable bit of its CNT_H register. */
  lemma LastUnitDisables(c: Channel, regs: bv32 -> bv16)
    requires c.running && Dec(c.xfer.wordCount) == 0 && !c.ctl.repeat
    ensures var s := ChannelCycleSpec(c, regs);
            !s.channel.running && !s.channel.ctl.enabled &&
            s.effects == [Copy(c.xfer.source, c.xfer.dest, c.ctl.wide), ClearEnable(Register(c.iobase, 10))] +
                         (if c.ctl.irq then [Interrupt(IrqFlag(c.index))] else [])
  {
  }

  /** The last unit of a repeating transfer reloads the count, reloads the destination only in increment-reload mode,
      keeps the advanced source, and runs on only for immediate timing. */
  lemma LastUnitRepeats(c: Channel, regs: bv32 -> bv16)
    requires c.running && Dec(c.xfer.wordCount) == 0 && c.ctl.repeat
    ensures var s := ChannelCycleSpec(c, regs);
            s.channel.ctl == c.ctl && s.channel.xfer.wordCount == ReloadWordCount(c.iobase, regs) &&
            s.channel.xfer.source == Advance(c.xfer.source, c.ctl.sac, c.ctl.wide) &&
            s.channel.xfer.dest == (if c.ctl.dac == INCREMENT_RELOAD then ReloadDest(c.iobase, regs)
                                    else Advance(c.xfer.dest, c.ctl.dac, c.ctl.wide)) &&
            (s.channel.running <==> c.ctl.startTiming == IMMEDIATELY) &&
            s.effects == [Copy(c.xfer.source, c.xfer.dest, c.ctl.wide)] + (if c.ctl.irq then [Interrupt(IrqFlag(c.index))] else [])
  {
  }

  /** A finished transfer raises `1 << (index + 8)`: 0x100, 0x200, 0x400 or 0x800. */
  lemma Flags(index: nat)
    requires index < 4
    ensures IrqFlag(index) == [0x100 as bv16, 0x200, 0x400, 0x800][index]
  {
  }

  /** A word transfer moves addresses by 4 and a halfword one by 2. */
  lemma AdvanceSteps(addr: bv32, control: bv16, word: bool)
    ensures control == INCREMENT ==> Advance(addr, control, word) == addr + (if word then 4 else 2)
    ensures control == DECREMENT ==> Advance(addr, control, word) == addr - (if word then 4 else 2)
    ensures control == FIXED ==> Advance(addr, control, word) == addr
  {
  }

  /** `gba_dma_cycle` reports activity exactly when a channel is running, and serves only the lowest running one. */
  lemma CycleServesLowest(chs: seq<Channel>, regs: bv32 -> bv16, j: nat)
    requires j < |chs|
    ensures var (active, after, _) := CycleSpec(chs, regs);
            (active <==> exists k :: 0 <= k < |chs| && chs[k].running) &&
            |after| == |chs| &&
            (after[j] != chs[j] ==> chs[j].running && forall k :: 0 <= k < j ==> !chs[k].running)
  {
    var first := FirstRunning(chs, 0);
    if first.None? {
      assert forall k :: 0 <= k < |chs| ==> !chs[k].running;
    } else {
      assert chs[first.value].running;
    }
  }

  // -------------------------------------------------------------------
  // The static state of dma.c

  class Dma {
    /** `gba_dma_channels`. */
    const channels: array<Channel>

    ghost predicate Valid()
      reads this
    {
      channels.Length == 4
    }

    ghost function Channels(): seq<Channel>
      reads this, channels
    {
      channels[..]
    }

    constructor ()
      ensures Valid() && fresh(channels) && Channels() == seq(4, _ => ZERO)
    {
      channels := new Channel[4](_ => ZERO);
    }

    /** `gba_dma_reset`: numbers the channels and sets their register bases; nothing else changes. */
    method Reset()
      requires Valid()
      modifies channels
      ensures forall i :: 0 <= i < 4 ==> channels[i] == old(channels[i]).(index := i, iobase := IoBase(i))
    {
      for i := 0 to 4
        invariant forall k :: 0 <= k < i ==> channels[k] == old(channels[k]).(index := k, iobase := IoBase(k))
        invariant forall k :: i <= k < 4 ==> channels[k] == old(channels[k])
      {
        channels[i] := channels[i].(index := i, iobase := IoBase(i));
      }
    }

    /** `gba_dma_writeCallback_cntH0..3` as written. */
    method WriteCntH(i: nat, value: bv16, regs: bv32 -> bv16)
      requires Valid() && i < 4
      modifies channels
      ensures Channels() == old(Channels())[i := CntHAsWritten(old(channels[i]), value, regs)]
    {
      var c := channels[i];
      var k := Latch(value, TimingAsWritten(value));
      if c.ctl.enabled && !k.enabled {
        c := c.(ctl := k, running := false);
      } else {
        c := c.(ctl := k, xfer := Reload(c.xfer, c.iobase, k.dac, regs, false));
        if c.ctl.startTiming == IMMEDIATELY {
          c := c.(running := true);
        }
      }
      channels[i] := c;
    }

    /** `gba_dma_cycle`: the first running channel cycles, and the call reports whether there was one. */
    method Cycle(regs: bv32 -> bv16) returns (active: bool, effects: seq<Effect>)
      requires Valid()
      modifies channels
      ensures (active, Channels(), effects) == CycleSpec(old(Channels()), regs)
    {
      for i := 0 to 4
        invariant Channels() == old(Channels())
        invariant FirstRunning(Channels(), 0) == FirstRunning(Channels(), i)
      {
        if channels[i].running {
          effects := ChannelCycle(i, regs);
          return true, effects;
        }
      }
      return false, [];
    }

    /** `gba_dma_channel_cycle` of a running channel `i`. */
    method ChannelCycle(i: nat, regs: bv32 -> bv16) returns (effects: seq<Effect>)
      requires Valid() && i < 4 && channels[i].running
      modifies channels
      ensures Channels() == old(Channels())[i := ChannelCycleSpec(old(channels[i]), regs).channel]
      ensures effects == ChannelCycleSpec(old(channels[i]), regs).effects
    {
      var c := channels[i];
      effects := [Copy(c.xfer.source, c.xfer.dest, c.ctl.wide)];
      channels[i] := c.(xfer := Move(c.xfer, c.ctl));
      if channels[i].xfer.wordCount == 0 {
        var f := Finish(i, regs);
        effects := effects + f;
      }
    }

    /** `gba_dma_channel_finish` of channel `i`. */
    method Finish(i: nat, regs: bv32 -> bv16) returns (effects: seq<Effect>)
      requires Valid() && i < 4
      modifies channels
      ensures Channels() == old(Channels())[i := FinishSpec(old(channels[i]), regs).channel]
      ensures effects == FinishSpec(old(channels[i]), regs).effects
    {
      var c := channels[i].(running := false);
      effects := [];
      if c.ctl.repeat {
        c := c.(xfer := Reload(c.xfer, c.iobase, c.ctl.dac, regs, true));
        if c.ctl.startTiming == IMMEDIATELY {
          c := c.(running := true);
        }
      } else {
        c := c.(ctl := c.ctl.(enabled := false));
        effects := [ClearEnable(Register(c.iobase, 10))];
      }
      if c.ctl.irq {
        effects := effects + [Interrupt(IrqFlag(c.index))];
      }
      channels[i] := c;
    }

    /** `gba_dma_onVblank` (`timing` VBLANK) and `gba_dma_onHblank` (`timing` HBLANK). */
    method OnBlank(timing: bv16)
      requires Valid()
      modifies channels
      ensures forall k :: 0 <= k < 4 ==> channels[k] == Trigger(old(channels[k]), timing)
    {
      for i := 0 to 4
        invariant forall k :: 0 <= k < i ==> channels[k] == Trigger(old(channels[k]), timing)
        invariant forall k :: i <= k < 4 ==> channels[k] == old(channels[k])
      {
        if channels[i].ctl.enabled && !channels[i].running && channels[i].ctl.startTiming == timing {
          channels[i] := channels[i].(running := true);
        }
      }
    }
  }
}
