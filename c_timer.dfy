// src/core/timer.c: the four cascading timers of the C core. A channel
// counts a 16-bit counter up; on overflow it raises its interrupt flag if
// enabled, offers the overflow to the next channel, which counts it only in
// count-up mode, and reloads. `gba_timer_cycle` runs the channels in order
// against a 32-bit cycle counter and then advances that counter.
//
// `nextChannel`, `irqFlag` and `index` are set by `gba_timer_reset` only;
// before the first reset the zero-initialised globals have no chain and a
// zero flag. That one fact is the `linked` flag here: after a reset channel
// `i`'s `nextChannel` is channel `i + 1` (channel 3 has none) and its flag is
// `1 << (i + 3)`. `index` is stored but never read.
//
// `gba_setInterruptFlag` belongs to gba.c: an operation returns the flags it
// passes, in call order. `gba_io_getRegister(0x04000102)`, whose bit 2 the
// channel 0 control write clears, is taken and returned as a value.

module CTimer {
  import opened Bits

  /** The fields of one `gba_timer_channel_t` that the timer operations change. */
  datatype Channel = Channel(reloadValue: bv16, prescaler: bv32, countUp: bool, irq: bool, operate: bool, counter: bv16)

  /** The channels after an operation, and the `gba_setInterruptFlag` arguments it passed, in order. */
  datatype Ticked = Ticked(channels: seq<Channel>, raised: seq<bv16>)

  /** `irqFlag` of channel `index` after a reset, and 0 before one. */
  function FlagOf(linked: bool, index: nat): bv16
    requires index < 4
  {
    if linked then IrqFlag(index) else 0
  }

  /** `1 << (index + 3)`: timer `index` owns interrupt bit `index + 3`. */
  function IrqFlag(index: nat): bv16
    requires index < 4
  {
    1 << (index + 3)
  }

  /** The flags of the timers from `i` on. */
  ghost function FlagsFrom(i: nat): set<bv16> {
    set k: nat | i <= k < 4 :: IrqFlag(k)
  }

  /** One step of a counter: up by one, or the reload value when it overflows. */
  function Bump(c: Channel): Channel {
    c.(counter := if c.counter == 0xffff then c.reloadValue else c.counter + 1)
  }

  // -------------------------------------------------------------------
  // The operations of a channel, on the four channels.

  /** `gba_timer_channel_increment` of channel `i`; on overflow the next channel's `lastOverflowed` runs before the reload. */
  function IncrementSpec(chs: seq<Channel>, linked: bool, i: nat): (r: Ticked)
    requires |chs| == 4 && i < 4
    ensures |r.channels| == 4
    decreases 4 - i, 0
  {
    var c := chs[i];
    var counter := c.counter + 1;
    if counter != 0 then Ticked(chs[i := c.(counter := counter)], [])
    else
      var flag := if c.irq then [FlagOf(linked, i)] else [];
      var wrapped := chs[i := c.(counter := 0)];
      var next := if linked && i + 1 < 4 then LastOverflowedSpec(wrapped, linked, i + 1) else Ticked(wrapped, []);
      var d := next.channels[i];
      Ticked(next.channels[i := d.(counter := d.reloadValue)], flag + next.raised)
  }

  /** `gba_timer_channel_lastOverflowed`: only a channel in count-up mode counts the overflow of the one before. */
  function LastOverflowedSpec(chs: seq<Channel>, linked: bool, i: nat): (r: Ticked)
    requires |chs| == 4 && i < 4
    ensures |r.channels| == 4
    decreases 4 - i, 1
  {
    if chs[i].countUp then IncrementSpec(chs, linked, i) else Ticked(chs, [])
  }

  /** The test of `gba_timer_channel_cycle`: an operating channel not in count-up mode, at a cycle count its prescaler mask lets through. */
  predicate Counts(c: Channel, cycleCounter: bv32) {
    c.operate && !c.countUp && cycleCounter & c.prescaler == 0
  }

  /** `gba_timer_channel_cycle` of channel `i`. */
  function ChannelCycleSpec(chs: seq<Channel>, linked: bool, i: nat, cycleCounter: bv32): (r: Ticked)
    requires |chs| == 4 && i < 4
    ensures |r.channels| == 4
  {
    if Counts(chs[i], cycleCounter) then IncrementSpec(chs, linked, i) else Ticked(chs, [])
  }

  /** The first `k` iterations of the loop of `gba_timer_cycle`. */
  function CycleUpTo(chs: seq<Channel>, linked: bool, cycleCounter: bv32, k: nat): (r: Ticked)
    requires |chs| == 4 && k <= 4
    ensures |r.channels| == 4
  {
    if k == 0 then Ticked(chs, [])
    else
      var t := CycleUpTo(chs, linked, cycleCounter, k - 1);
      var u := ChannelCycleSpec(t.channels, linked, k - 1, cycleCounter);
      Ticked(u.channels, t.raised + u.raised)
  }

  /** The channels and flags of `gba_timer_cycle`, which then advances the cycle counter. */
  function CycleSpec(chs: seq<Channel>, linked: bool, cycleCounter: bv32): (r: Ticked)
    requires |chs| == 4
    ensures |r.channels| == 4
  {
    CycleUpTo(chs, linked, cycleCounter, 4)
  }

  /** The `switch` on bits 1:0 of a control write. */
  function Prescaler(field: bv16): bv32 {
    if field == 0 then 0 else if field == 1 then 63 else if field == 2 then 255 else 1023
  }

  /** The settings a control write gives its own channel: prescaler, irq (bit 6) and operate (bit 7). */
  function Configure(c: Channel, value: bv16): Channel {
    c.(prescaler := Prescaler(value & 3), irq := value & 0x40 != 0, operate := value & 0x80 != 0)
  }

  /**
   * `gba_timer_writeCallback_channel_control(index, value)` as written: the
   * count-up assignment goes through `gba_timer_channels->countUp`, which
   * is channel 0's, whatever `index` is.
   */
  function ControlAsWritten(chs: seq<Channel>, index: nat, value: bv16): (r: seq<Channel>)
    requires |chs| == 4 && index < 4
    ensures |r| == 4
  {
    var configured := chs[index := Configure(chs[index], value)];
    var zero := configured[0].(countUp := index != 0 && value & 4 != 0);
    configured[0 := zero]
  }

  /** The control write as intended: channel `index` takes its own count-up bit 2, channel 0 has none. */
  function ControlSpec(chs: seq<Channel>, index: nat, value: bv16): (r: seq<Channel>)
    requires |chs| == 4 && index < 4
    ensures |r| == 4
  {
    chs[index := Configure(chs[index], value).(countUp := index != 0 && value & 4 != 0)]
  }

  /** The register at 0x04000102 after a control write of channel `index`: channel 0 clears its bit 2. */
  function ControlRegisterSpec(index: nat, register: bv16): bv16 {
    if index == 0 then register & 0xfffb else register
  }

  // -------------------------------------------------------------------
  // Counting

  /** `Increment(i)` never changes a channel below `i`, nor a later one that is not in count-up mode. */
  lemma {:induction false} IncrementSkips(chs: seq<Channel>, linked: bool, i: nat, j: nat)
    requires |chs| == 4 && i < 4 && j < 4 && (j < i || (j > i && !chs[j].countUp))
    ensures IncrementSpec(chs, linked, i).channels[j] == chs[j]
    decreases 4 - i
  {
    var c := chs[i];
    if c.counter + 1 == 0 && linked && i + 1 < 4 && chs[i + 1].countUp {
      var wrapped := chs[i := c.(counter := 0)];
      assert wrapped[j] == chs[j];
      IncrementSkips(wrapped, linked, i + 1, j);
    }
  }

  /** `Increment(i)` steps its own counter once: up by one, or to the reload value on overflow. */
  lemma IncrementOwn(chs: seq<Channel>, linked: bool, i: nat)
    requires |chs| == 4 && i < 4
    ensures IncrementSpec(chs, linked, i).channels[i] == Bump(chs[i])
  {
    var c := chs[i];
    if c.counter + 1 == 0 && linked && i + 1 < 4 && chs[i + 1].countUp {
      IncrementSkips(chs[i := c.(counter := 0)], linked, i + 1, i);
    }
  }

  /** After a reset, the overflow of channel `i` reaches channel `i + 1` exactly when that channel is in count-up mode. */
  lemma OverflowCascades(chs: seq<Channel>, i: nat)
    requires |chs| == 4 && i + 1 < 4 && chs[i].counter == 0xffff
    ensures IncrementSpec(chs, true, i).channels[i + 1] == if chs[i + 1].countUp then Bump(chs[i + 1]) else chs[i + 1]
  {
    var wrapped := chs[i := chs[i].(counter := 0)];
    if chs[i + 1].countUp {
      IncrementOwn(wrapped, true, i + 1);
    }
  }

  /** Before the first reset there is no chain: an increment steps its own channel only, and an overflow passes the flag 0. */
  lemma UnlinkedIncrement(chs: seq<Channel>, i: nat)
    requires |chs| == 4 && i < 4
    ensures IncrementSpec(chs, false, i).channels == chs[i := Bump(chs[i])]
    ensures IncrementSpec(chs, false, i).raised == if chs[i].counter == 0xffff && chs[i].irq then [0] else []
  {
  }

  /** Every flag `Increment(i)` passes is that of a channel from `i` on. */
  lemma {:induction false} RaisedFrom(chs: seq<Channel>, i: nat)
    requires |chs| == 4 && i < 4
    ensures forall x :: 0 <= x < |IncrementSpec(chs, true, i).raised| ==> IncrementSpec(chs, true, i).raised[x] in FlagsFrom(i)
    decreases 4 - i
  {
    var c := chs[i];
    var r := IncrementSpec(chs, true, i);
    if c.counter + 1 == 0 {
      var flag := if c.irq then [IrqFlag(i)] else [];
      var wrapped := chs[i := c.(counter := 0)];
      var next := if i + 1 < 4 then LastOverflowedSpec(wrapped, true, i + 1) else Ticked(wrapped, []);
      assert r.raised == flag + next.raised;
      if i + 1 < 4 && wrapped[i + 1].countUp {
        assert next == IncrementSpec(wrapped, true, i + 1);
        RaisedFrom(wrapped, i + 1);
      }
      assert forall y :: 0 <= y < |next.raised| ==> next.raised[y] in FlagsFrom(i + 1);
      forall x | 0 <= x < |r.raised|
        ensures r.raised[x] in FlagsFrom(i)
      {
        if x < |flag| {
          assert IrqFlag(i) in FlagsFrom(i);
        } else {
          assert r.raised[x] == next.raised[x - |flag|];
          FlagsFromShrink(i);
        }
      }
    }
  }

  lemma FlagsFromShrink(i: nat)
    ensures FlagsFrom(i + 1) <= FlagsFrom(i)
  {
  }

  /** After a reset, `Increment(i)` passes channel `i`'s own flag exactly when its counter overflows with irq set. */
  lemma OwnFlag(chs: seq<Channel>, i: nat)
    requires |chs| == 4 && i < 4
    ensures IrqFlag(i) in IncrementSpec(chs, true, i).raised <==> chs[i].counter == 0xffff && chs[i].irq
  {
    var c := chs[i];
    if c.counter + 1 == 0 && i + 1 < 4 {
      var wrapped := chs[i := c.(counter := 0)];
      var next := LastOverflowedSpec(wrapped, true, i + 1);
      if wrapped[i + 1].countUp {
        RaisedFrom(wrapped, i + 1);
      }
      NotLater(i);
      assert IrqFlag(i) !in next.raised;
    }
  }

  lemma NotLater(i: nat)
    requires i < 4
    ensures IrqFlag(i) !in FlagsFrom(i + 1)
  {
    if IrqFlag(i) in FlagsFrom(i + 1) {
      var k: nat :| i + 1 <= k < 4 && IrqFlag(k) == IrqFlag(i);
      DistinctFlags(i, k);
    }
  }

  lemma DistinctFlags(i: nat, k: nat)
    requires i < k < 4
    ensures IrqFlag(i) != IrqFlag(k)
  {
  }

  /** Counting changes neither the count-up, irq and operate settings, nor the prescaler, nor the reload value of any channel. */
  lemma {:induction false} IncrementKeepsSettings(chs: seq<Channel>, linked: bool, i: nat, j: nat)
    requires |chs| == 4 && i < 4 && j < 4
    ensures var c := IncrementSpec(chs, linked, i).channels[j];
            c == chs[j].(counter := c.counter)
    decreases 4 - i
  {
    var c := chs[i];
    if c.counter + 1 == 0 && linked && i + 1 < 4 && chs[i + 1].countUp {
      IncrementKeepsSettings(chs[i := c.(counter := 0)], linked, i + 1, j);
    }
  }

  // -------------------------------------------------------------------
  // gba_timer_cycle

  /** A channel not in count-up mode is stepped once by the loop exactly when its own test passes, and is otherwise unchanged. */
  lemma CycleStepsChannel(chs: seq<Channel>, linked: bool, cycleCounter: bv32, j: nat)
    requires |chs| == 4 && j < 4 && !chs[j].countUp
    ensures CycleSpec(chs, linked, cycleCounter).channels[j] == if Counts(chs[j], cycleCounter) then Bump(chs[j]) else chs[j]
  {
    CycleUpToChannel(chs, linked, cycleCounter, j, 4);
  }

  lemma {:induction false} CycleUpToChannel(chs: seq<Channel>, linked: bool, cycleCounter: bv32, j: nat, k: nat)
    requires |chs| == 4 && j < 4 && k <= 4 && !chs[j].countUp
    ensures CycleUpTo(chs, linked, cycleCounter, k).channels[j] == if j < k && Counts(chs[j], cycleCounter) then Bump(chs[j]) else chs[j]
    decreases k
  {
    if k > 0 {
      CycleUpToChannel(chs, linked, cycleCounter, j, k - 1);
      var t := CycleUpTo(chs, linked, cycleCounter, k - 1);
      if k - 1 == j {
        assert t.channels[j] == chs[j];
        if Counts(chs[j], cycleCounter) {
          IncrementOwn(t.channels, linked, j);
        }
      } else {
        assert t.channels[j].countUp == chs[j].countUp;
        if Counts(t.channels[k - 1], cycleCounter) {
          IncrementSkips(t.channels, linked, k - 1, j);
        }
      }
    }
  }

  /** Channel 0 in count-up mode never counts: it has no channel before it, and its own test fails. */
  lemma CycleStallsCountUpZero(chs: seq<Channel>, linked: bool, cycleCounter: bv32)
    requires |chs| == 4 && chs[0].countUp
    ensures CycleSpec(chs, linked, cycleCounter).channels[0] == chs[0]
  {
    CycleUpToZero(chs, linked, cycleCounter, 4);
  }

  lemma {:induction false} CycleUpToZero(chs: seq<Channel>, linked: bool, cycleCounter: bv32, k: nat)
    requires |chs| == 4 && k <= 4 && chs[0].countUp
    ensures CycleUpTo(chs, linked, cycleCounter, k).channels[0] == chs[0]
    decreases k
  {
    if k > 0 {
      CycleUpToZero(chs, linked, cycleCounter, k - 1);
      var t := CycleUpTo(chs, linked, cycleCounter, k - 1);
      if k - 1 > 0 && Counts(t.channels[k - 1], cycleCounter) {
        IncrementSkips(t.channels, linked, k - 1, 0);
      }
    }
  }

  /** The prescaler field selects a count on every 1st, 64th, 256th or 1024th value of the cycle counter. */
  lemma PrescalerPeriod(cycleCounter: bv32)
    ensures cycleCounter & Prescaler(0) == 0
    ensures cycleCounter & Prescaler(1) == 0 <==> cycleCounter % 64 == 0
    ensures cycleCounter & Prescaler(2) == 0 <==> cycleCounter % 256 == 0
    ensures cycleCounter & Prescaler(3) == 0 <==> cycleCounter % 1024 == 0
  {
    Mask63(cycleCounter);
    Mask255(cycleCounter);
    Mask1023(cycleCounter);
  }

  lemma Mask63(x: bv32) ensures x & 63 == x % 64 {}
  lemma Mask255(x: bv32) ensures x & 255 == x % 256 {}
  lemma Mask1023(x: bv32) ensures x & 1023 == x % 1024 {}

  // -------------------------------------------------------------------
  // The control callback

  /**
   * As written, a control write to channels 1 to 3 sets or clears channel
   * 0's count-up mode and leaves its own: writing 0x0084 (enable,
   * cascade) to timer 1 leaves timer 1 free-running, and timer 0, now in
   * count-up mode with no channel before it, stops counting.
   */
  lemma ControlAsWrittenStallsTimer0(chs: seq<Channel>, linked: bool, cycleCounter: bv32)
    requires |chs| == 4
    ensures var w := ControlAsWritten(chs, 1, 0x0084);
            w[0].countUp && w[1].countUp == chs[1].countUp &&
            CycleSpec(w, linked, cycleCounter).channels[0] == w[0]
  {
    CycleStallsCountUpZero(ControlAsWritten(chs, 1, 0x0084), linked, cycleCounter);
  }

  /** A control write as intended configures its own channel only; channel 0 cannot cascade, the others take bit 2. */
  lemma ControlConfiguresOwnChannel(chs: seq<Channel>, index: nat, value: bv16, j: nat)
    requires |chs| == 4 && index < 4 && j < 4
    ensures var c := ControlSpec(chs, index, value)[j];
            if j == index then
              (c.countUp <==> index != 0 && value & 4 != 0) && (c.irq <==> value & 0x40 != 0) &&
              (c.operate <==> value & 0x80 != 0) && c.prescaler == Prescaler(value & 3) &&
              c.counter == chs[j].counter && c.reloadValue == chs[j].reloadValue
            else c == chs[j]
  {
  }

  /** The intended write differs from the written one only in the count-up modes of channel 0 and of the written channel. */
  lemma ControlAsWrittenDiffers(chs: seq<Channel>, index: nat, value: bv16)
    requires |chs| == 4 && 0 < index < 4
    ensures ControlAsWritten(chs, index, value)[0].countUp == (value & 4 != 0)
    ensures ControlAsWritten(chs, index, value)[index].countUp == chs[index].countUp
    ensures ControlSpec(chs, index, value)[0] == chs[0]
    ensures ControlSpec(chs, index, value)[index].countUp == (value & 4 != 0)
  {
  }

  /** A control write to channel 0 drops its count-up mode and clears bit 2 of 0x04000102, as written and as intended. */
  lemma ControlZero(chs: seq<Channel>, value: bv16, register: bv16)
    requires |chs| == 4
    ensures ControlAsWritten(chs, 0, value) == ControlSpec(chs, 0, value)
    ensures !ControlSpec(chs, 0, value)[0].countUp
    ensures ControlRegisterSpec(0, register) & 4 == 0 && ControlRegisterSpec(0, register) | 4 == register | 4
  {
  }

  // -------------------------------------------------------------------
  // The static state of timer.c

  class Timer {
    /** `gba_timer_channels`. */
    const channels: array<Channel>
    /** Whether `gba_timer_reset` has set the chain and the flags. */
    var linked: bool
    /** `gba_timer_cycleCounter`, taken as 32 bits wide. */
    var cycleCounter: bv32

    ghost predicate Valid()
      reads this
    {
      channels.Length == 4
    }

    ghost function Channels(): seq<Channel>
      reads this, channels
    {
      channels[..]
    }

    /** The zero-initialised globals: no chain, counters and settings zero. */
    constructor ()
      ensures Valid() && fresh(channels) && !linked && cycleCounter == 0
      ensures Channels() == seq(4, _ => Channel(0, 0, false, false, false, 0))
    {
      channels := new Channel[4](_ => Channel(0, 0, false, false, false, 0));
      linked := false;
      cycleCounter := 0;
    }

    /** `gba_timer_reset`: links the chain and sets the flags; counters and settings are kept. */
    method Reset()
      requires Valid()
      modifies this
      ensures linked && cycleCounter == old(cycleCounter)
      ensures forall i :: 0 <= i < 4 ==> FlagOf(linked, i) == 1 << (i + 3)
    {
      linked := true;
    }

    /** `gba_timer_cycle`: one channel cycle per channel, in order, then the cycle counter advances, wrapping at 32 bits. */
    method Cycle() returns (raised: seq<bv16>)
      requires Valid()
      modifies this, channels
      ensures linked == old(linked) && cycleCounter == old(cycleCounter) + 1
      ensures Ticked(Channels(), raised) == CycleSpec(old(Channels()), linked, old(cycleCounter))
    {
      ghost var chs := Channels();
      raised := [];
      for k := 0 to 4
        invariant linked == old(linked) && cycleCounter == old(cycleCounter)
        invariant Ticked(Channels(), raised) == CycleUpTo(chs, linked, cycleCounter, k)
      {
        var r := ChannelCycle(k, cycleCounter);
        raised := raised + r;
      }
      cycleCounter := cycleCounter + 1;
    }

    /** `gba_timer_channel_cycle` of channel `i`. */
    method ChannelCycle(i: nat, counter: bv32) returns (raised: seq<bv16>)
      requires Valid() && i < 4
      modifies channels
      ensures Ticked(Channels(), raised) == ChannelCycleSpec(old(Channels()), linked, i, counter)
    {
      raised := [];
      if Counts(channels[i], counter) {
        raised := Increment(i);
      }
    }

    /** `gba_timer_channel_increment` of channel `i`. */
    method Increment(i: nat) returns (raised: seq<bv16>)
      requires Valid() && i < 4
      modifies channels
      ensures Ticked(Channels(), raised) == IncrementSpec(old(Channels()), linked, i)
      decreases 4 - i, 0
    {
      var c := channels[i];
      channels[i] := c.(counter := c.counter + 1);
      raised := [];
      if channels[i].counter == 0 {
        if c.irq {
          raised := [FlagOf(linked, i)];
        }
        if linked && i + 1 < 4 {
          var next := LastOverflowed(i + 1);
          raised := raised + next;
        }
        var d := channels[i];
        channels[i] := d.(counter := d.reloadValue);
      }
    }

    /** `gba_timer_channel_lastOverflowed` of channel `i`. */
    method LastOverflowed(i: nat) returns (raised: seq<bv16>)
      requires Valid() && i < 4
      modifies channels
      ensures Ticked(Channels(), raised) == LastOverflowedSpec(old(Channels()), linked, i)
      decreases 4 - i, 1
    {
      raised := [];
      if channels[i].countUp {
        raised := Increment(i);
      }
    }

    /** `gba_timer_writeCallback_channel_reload(i, value)`: only the reload value changes. */
    method WriteReload(i: nat, value: bv16)
      requires Valid() && i < 4
      modifies channels
      ensures Channels() == old(Channels())[i := old(channels[i]).(reloadValue := value)]
    {
      channels[i] := channels[i].(reloadValue := value);
    }

    /** `gba_timer_writeCallback_channel_control(i, value)` as written; `register` is the value at 0x04000102. */
    method WriteControl(i: nat, value: bv16, register: bv16) returns (register': bv16)
      requires Valid() && i < 4
      modifies channels
      ensures Channels() == ControlAsWritten(old(Channels()), i, value)
      ensures register' == ControlRegisterSpec(i, register)
    {
      var prescaler: bv32 := 0;
      if value & 3 == 1 {
        prescaler := 63;
      } else if value & 3 == 2 {
        prescaler := 255;
      } else if value & 3 == 3 {
        prescaler := 1023;
      }
      assert prescaler == Prescaler(value & 3);
      var configured := channels[i].(prescaler := prescaler, irq := value & 0x40 != 0, operate := value & 0x80 != 0);
      register' := register;
      if i == 0 {
        channels[0] := configured.(countUp := false);
        register' := register & 0xfffb;
      } else {
        channels[i] := configured;
        channels[0] := channels[0].(countUp := value & 4 != 0);
      }
    }
  }
}
