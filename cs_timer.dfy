// src/GBA/Timer.cs: the four cascading timers of the C# core. Each channel
// counts a 16-bit counter up; on overflow it reloads the counter, raises its
// interrupt flag (1 << (index + 3)) if enabled, and offers the overflow to
// the next channel, which counts it only in count-up (cascade) mode. The
// `nextChannel` chain 0 -> 1 -> 2 -> 3 -> null is the index order here.
//
// `SetInterruptFlag` belongs to the GBA; a timer operation returns the
// flags it raises, in the order of the calls. The control callback of
// channel 0 also clears bit 2 of the register at 0x04000102, whose value
// the operation takes and returns.

module CsTimer {
  import opened CsBitUtils

  /** The fields of one `Timer.Channel` that change. */
  datatype Channel = Channel(reloadValue: bv16, prescaler: bv32, countUp: bool, irq: bool, operate: bool, counter: bv16)

  /** A channel as the constructor leaves it: every field zero or false. */
  const IDLE: Channel := Channel(0, 0, false, false, false, 0)

  /** The channels after an operation, and the `SetInterruptFlag` arguments it passed, in order. */
  datatype Ticked = Ticked(channels: seq<Channel>, raised: seq<bv16>)

  /** `irqFlag`: timer `index` owns interrupt bit `index + 3`. */
  function IrqFlag(index: nat): bv16
    requires index < 4
  {
    1 << (index + 3)
  }

  /** One step of a counter: up by one, or the reload value when it overflows. */
  function Bump(c: Channel): Channel {
    c.(counter := if c.counter == 0xffff then c.reloadValue else c.counter + 1)
  }

  // -------------------------------------------------------------------
  // The operations of a channel, on the four channels.

  /** `Increment` of channel `i`; on overflow, `LastOverflowed` of the next channel runs before the reload. */
  function IncrementSpec(chs: seq<Channel>, i: nat): (r: Ticked)
    requires |chs| == 4 && i < 4
    ensures |r.channels| == 4
    decreases 4 - i, 0
  {
    var c := chs[i];
    var counter := c.counter + 1;
    if counter != 0 then Ticked(chs[i := c.(counter := counter)], [])
    else
      var flag := if c.irq then [IrqFlag(i)] else [];
      var wrapped := chs[i := c.(counter := 0)];
      var next := if i + 1 < 4 then LastOverflowedSpec(wrapped, i + 1) else Ticked(wrapped, []);
      var d := next.channels[i];
      Ticked(next.channels[i := d.(counter := d.reloadValue)], flag + next.raised)
  }

  /** `LastOverflowed`: only a channel in count-up mode counts the overflow of the one before. */
  function LastOverflowedSpec(chs: seq<Channel>, i: nat): (r: Ticked)
    requires |chs| == 4 && i < 4
    ensures |r.channels| == 4
    decreases 4 - i, 1
  {
    if chs[i].countUp then IncrementSpec(chs, i) else Ticked(chs, [])
  }

  /** `Channel.Cycle(cycleCounter)`: an operating channel that is not cascaded counts when the prescaler mask of the counter is zero. */
  function ChannelCycleSpec(chs: seq<Channel>, i: nat, cycleCounter: bv32): (r: Ticked)
    requires |chs| == 4 && i < 4
    ensures |r.channels| == 4
  {
    if Counts(chs[i], cycleCounter) then IncrementSpec(chs, i) else Ticked(chs, [])
  }

  /** The test of `Channel.Cycle`: an operating channel that is not cascaded, at a cycle count the prescaler mask lets through. */
  predicate Counts(c: Channel, cycleCounter: bv32) {
    c.operate && !c.countUp && cycleCounter & c.prescaler == 0
  }

  /** The first `k` channels cycled in order, as `Timer.Cycle`'s loop does. */
  function CycleUpTo(chs: seq<Channel>, cycleCounter: bv32, k: nat): (r: Ticked)
    requires |chs| == 4 && k <= 4
    ensures |r.channels| == 4
  {
    if k == 0 then Ticked(chs, [])
    else
      var t := CycleUpTo(chs, cycleCounter, k - 1);
      var u := ChannelCycleSpec(t.channels, k - 1, cycleCounter);
      Ticked(u.channels, t.raised + u.raised)
  }

  /** `Timer.Cycle`. */
  function CycleSpec(chs: seq<Channel>, cycleCounter: bv32): (r: Ticked)
    requires |chs| == 4
    ensures |r.channels| == 4
  {
    CycleUpTo(chs, cycleCounter, 4)
  }

  /** `WriteCallback_Control`: prescaler from bits 1:0, cascade from bit 2 except on channel 0, irq bit 6, enable bit 7. */
  function ControlSpec(c: Channel, index: nat, value: bv16): Channel {
    c.(prescaler := Prescaler(value & 3), countUp := index != 0 && BitTest16(value, 2),
       irq := BitTest16(value, 6), operate := BitTest16(value, 7))
  }

  /** The `switch` on bits 1:0 of a control write. */
  function Prescaler(field: bv16): bv32 {
    if field == 0 then 0 else if field == 1 then 63 else if field == 2 then 255 else 1023
  }

  /** The register at 0x04000102 after a control write of channel `index`: channel 0 clears its bit 2. */
  function ControlRegisterSpec(index: nat, register: bv16): bv16 {
    if index == 0 then register & 0xfffb else register
  }

  // -------------------------------------------------------------------
  // The cascade, as a reference definition: `Increment(i)` reaches channel
  // `j` when every channel from `i` up to `j` overflows and every channel
  // after `i` up to `j` is in count-up mode.

  ghost predicate Carries(chs: seq<Channel>, i: nat, j: nat)
    requires j < |chs|
  {
    i <= j && forall k :: i <= k < j ==> Links(chs, k)
  }

  /** Channel `k` overflows into channel `k + 1`, which counts it. */
  ghost predicate Links(chs: seq<Channel>, k: nat)
    requires k + 1 < |chs|
  {
    chs[k].counter == 0xffff && chs[k + 1].countUp
  }

  /** The flags an `Increment(i)` raises: those of the channels it reaches that overflow with irq set, from `k` up. */
  ghost function OverflowFlags(chs: seq<Channel>, i: nat, k: nat): seq<bv16>
    requires |chs| == 4 && k <= 4
    decreases 4 - k
  {
    if k == 4 then []
    else
      var c := chs[k];
      (if Carries(chs, i, k) && c.counter == 0xffff && c.irq then [IrqFlag(k)] else []) + OverflowFlags(chs, i, k + 1)
  }

  /** `Increment(i)` steps exactly the channels it carries to, each once, and leaves the rest. */
  lemma {:induction false} IncrementRipple(chs: seq<Channel>, i: nat)
    requires |chs| == 4 && i < 4
    ensures var r := IncrementSpec(chs, i);
            forall j :: 0 <= j < 4 ==> r.channels[j] == if Carries(chs, i, j) then Bump(chs[j]) else chs[j]
    ensures IncrementSpec(chs, i).raised == OverflowFlags(chs, i, i)
    decreases 4 - i
  {
    if i + 1 < 4 && Links(chs, i) {
      var wrapped := chs[i := chs[i].(counter := 0)];
      IncrementRipple(wrapped, i + 1);
      RippleCascades(chs, i, wrapped);
    } else {
      RippleStops(chs, i);
    }
  }

  /** The overflow of channel `i` is counted by channel `i + 1`: the rest of the ripple is that of `i + 1`. */
  lemma RippleCascades(chs: seq<Channel>, i: nat, wrapped: seq<Channel>)
    requires |chs| == 4 && i + 1 < 4 && Links(chs, i) && wrapped == chs[i := chs[i].(counter := 0)]
    requires var r := IncrementSpec(wrapped, i + 1);
             (forall j :: 0 <= j < 4 ==> r.channels[j] == if Carries(wrapped, i + 1, j) then Bump(wrapped[j]) else wrapped[j]) &&
             r.raised == OverflowFlags(wrapped, i + 1, i + 1)
    ensures var r := IncrementSpec(chs, i);
            forall j :: 0 <= j < 4 ==> r.channels[j] == if Carries(chs, i, j) then Bump(chs[j]) else chs[j]
    ensures IncrementSpec(chs, i).raised == OverflowFlags(chs, i, i)
  {
    CarryShift(chs, wrapped, i);
    FlagsShift(chs, wrapped, i, i + 1);
  }

  /** Channel `i` steps alone when it does not overflow into a count-up channel. */
  lemma RippleStops(chs: seq<Channel>, i: nat)
    requires |chs| == 4 && i < 4 && !(i + 1 < 4 && Links(chs, i))
    ensures var r := IncrementSpec(chs, i);
            forall j :: 0 <= j < 4 ==> r.channels[j] == if Carries(chs, i, j) then Bump(chs[j]) else chs[j]
    ensures IncrementSpec(chs, i).raised == OverflowFlags(chs, i, i)
  {
    NoCarryPast(chs, i);
    if chs[i].counter != 0xffff {
      StepsAlone(chs, i);
    } else {
      OverflowsAlone(chs, i);
    }
  }

  lemma StepsAlone(chs: seq<Channel>, i: nat)
    requires |chs| == 4 && i < 4 && chs[i].counter != 0xffff
    requires forall j :: i < j < 4 ==> !Carries(chs, i, j)
    ensures var r := IncrementSpec(chs, i);
            forall j :: 0 <= j < 4 ==> r.channels[j] == if Carries(chs, i, j) then Bump(chs[j]) else chs[j]
    ensures IncrementSpec(chs, i).raised == OverflowFlags(chs, i, i)
  {
    NoFlagsPast(chs, i, i + 1);
  }

  lemma OverflowsAlone(chs: seq<Channel>, i: nat)
    requires |chs| == 4 && i < 4 && chs[i].counter == 0xffff && !(i + 1 < 4 && chs[i + 1].countUp)
    requires forall j :: i < j < 4 ==> !Carries(chs, i, j)
    ensures var r := IncrementSpec(chs, i);
            forall j :: 0 <= j < 4 ==> r.channels[j] == if Carries(chs, i, j) then Bump(chs[j]) else chs[j]
    ensures IncrementSpec(chs, i).raised == OverflowFlags(chs, i, i)
  {
    NoFlagsPast(chs, i, i + 1);
  }

  /** When channel `i` does not carry into channel `i + 1`, `Increment(i)` reaches no channel past `i`. */
  lemma NoCarryPast(chs: seq<Channel>, i: nat)
    requires |chs| == 4 && i < 4
    requires !(i + 1 < 4 && Links(chs, i))
    ensures forall j :: i < j < 4 ==> !Carries(chs, i, j)
  {
    forall j | i < j < 4
      ensures !Carries(chs, i, j)
    {
      assert !Links(chs, i);
    }
  }

  lemma {:induction false} NoFlagsPast(chs: seq<Channel>, i: nat, k: nat)
    requires |chs| == 4 && i < k <= 4
    requires forall j :: i < j < 4 ==> !Carries(chs, i, j)
    ensures OverflowFlags(chs, i, k) == []
    decreases 4 - k
  {
    if k < 4 {
      NoFlagsPast(chs, i, k + 1);
    }
  }

  /** Past channel `i`, carrying from `i` is carrying from `i + 1` once `i` has overflowed into a count-up channel. */
  lemma CarryShift(chs: seq<Channel>, wrapped: seq<Channel>, i: nat)
    requires |chs| == 4 && i + 1 < 4 && chs[i].counter == 0xffff && chs[i + 1].countUp
    requires wrapped == chs[i := chs[i].(counter := 0)]
    ensures forall j :: i < j < 4 ==> (Carries(chs, i, j) <==> Carries(wrapped, i + 1, j))
  {
    assert Links(chs, i);
    forall k | i < k < 3
      ensures Links(chs, k) <==> Links(wrapped, k)
    {
      assert wrapped[k] == chs[k] && wrapped[k + 1] == chs[k + 1];
    }
  }

  lemma {:induction false} FlagsShift(chs: seq<Channel>, wrapped: seq<Channel>, i: nat, k: nat)
    requires |chs| == 4 && i < k <= 4 && i + 1 < 4 && chs[i].counter == 0xffff && chs[i + 1].countUp
    requires wrapped == chs[i := chs[i].(counter := 0)]
    requires forall j :: i < j < 4 ==> (Carries(chs, i, j) <==> Carries(wrapped, i + 1, j))
    ensures OverflowFlags(chs, i, k) == OverflowFlags(wrapped, i + 1, k)
    decreases 4 - k
  {
    if k < 4 {
      FlagsShift(chs, wrapped, i, k + 1);
    }
  }

  /** A counter at 0xffff overflows to the reload value and raises its flag only if irq is set. */
  lemma OverflowReloads(chs: seq<Channel>, i: nat)
    requires |chs| == 4 && i < 4
    ensures var r := IncrementSpec(chs, i);
            r.channels[i].counter == (if chs[i].counter == 0xffff then chs[i].reloadValue else chs[i].counter + 1) &&
            (IrqFlag(i) in r.raised <==> chs[i].counter == 0xffff && chs[i].irq)
  {
    IncrementRipple(chs, i);
    assert Carries(chs, i, i);
    OwnFlag(chs, i);
  }

  /** Channel `i`'s own flag is the first `Increment(i)` can raise; the others are of later channels. */
  lemma OwnFlag(chs: seq<Channel>, i: nat)
    requires |chs| == 4 && i < 4
    ensures IrqFlag(i) in OverflowFlags(chs, i, i) <==> chs[i].counter == 0xffff && chs[i].irq
  {
    assert Carries(chs, i, i);
    LaterFlags(chs, i, i + 1);
  }

  lemma {:induction false} LaterFlags(chs: seq<Channel>, i: nat, k: nat)
    requires |chs| == 4 && i < k <= 4
    ensures IrqFlag(i) !in OverflowFlags(chs, i, k)
    decreases 4 - k
  {
    if k < 4 {
      DistinctFlags(i, k);
      LaterFlags(chs, i, k + 1);
    }
  }

  lemma DistinctFlags(i: nat, k: nat)
    requires i < k < 4
    ensures IrqFlag(i) != IrqFlag(k)
  {
  }

  /** The overflow of channel `i` reaches channel `i + 1` exactly when that channel is in count-up mode. */
  lemma OverflowCascades(chs: seq<Channel>, i: nat)
    requires |chs| == 4 && i + 1 < 4 && chs[i].counter == 0xffff
    ensures IncrementSpec(chs, i).channels[i + 1] == if chs[i + 1].countUp then Bump(chs[i + 1]) else chs[i + 1]
  {
    IncrementRipple(chs, i);
  }

  // -------------------------------------------------------------------
  // Timer.Cycle

  /** `Increment(i)` never reaches a channel below `i`, nor one past `i` that is not in count-up mode. */
  lemma IncrementSkips(chs: seq<Channel>, i: nat, j: nat)
    requires |chs| == 4 && i < 4 && j < 4 && (j < i || (j > i && !chs[j].countUp))
    ensures IncrementSpec(chs, i).channels[j] == chs[j]
  {
    IncrementRipple(chs, i);
    if j > i {
      assert !Links(chs, j - 1);
    }
  }

  /** The count-up, irq and operate settings, and the prescaler, are never changed by counting. */
  lemma IncrementKeepsSettings(chs: seq<Channel>, i: nat, j: nat)
    requires |chs| == 4 && i < 4 && j < 4
    ensures var c := IncrementSpec(chs, i).channels[j];
            c.countUp == chs[j].countUp && c.operate == chs[j].operate && c.prescaler == chs[j].prescaler &&
            c.reloadValue == chs[j].reloadValue
  {
    IncrementRipple(chs, i);
  }

  /**
   * `cycleCounter` is never advanced, so with its initial value 0 the
   * prescaler mask always passes: every call of `Timer.Cycle` steps each
   * operating channel that is not cascaded exactly once, whatever its
   * prescaler.
   */
  lemma CycleTicksFreeRunning(chs: seq<Channel>, j: nat)
    requires |chs| == 4 && j < 4 && chs[j].operate && !chs[j].countUp
    ensures CycleSpec(chs, 0).channels[j] == Bump(chs[j])
  {
    CycleUpToChannel(chs, j, 4);
  }

  /** After the first `k` channels have cycled, channel `j` is stepped once if `j < k`, else untouched. */
  lemma {:induction false} CycleUpToChannel(chs: seq<Channel>, j: nat, k: nat)
    requires |chs| == 4 && j < 4 && k <= 4 && chs[j].operate && !chs[j].countUp
    ensures CycleUpTo(chs, 0, k).channels[j] == if j < k then Bump(chs[j]) else chs[j]
    decreases k
  {
    if k > 0 {
      CycleUpToChannel(chs, j, k - 1);
      var t := CycleUpTo(chs, 0, k - 1);
      if k - 1 == j {
        assert t.channels[j] == chs[j];
        IncrementRipple(t.channels, j);
        assert Carries(t.channels, j, j);
      } else {
        var c := t.channels[k - 1];
        if c.operate && !c.countUp {
          IncrementSkips(t.channels, k - 1, j);
        }
      }
    }
  }

  /** Whatever the channels, with the counter at 0 a cascaded or stopped channel is never stepped by its own `Channel.Cycle`. */
  lemma ChannelCycleIdle(chs: seq<Channel>, i: nat, cycleCounter: bv32)
    requires |chs| == 4 && i < 4 && (!chs[i].operate || chs[i].countUp)
    ensures ChannelCycleSpec(chs, i, cycleCounter) == Ticked(chs, [])
  {
  }

  // -------------------------------------------------------------------
  // The control callback

  /** The prescaler field selects a count every 1, 64, 256 or 1024 values of the cycle counter. */
  lemma PrescalerPeriod(cycleCounter: bv32)
    ensures cycleCounter & Prescaler(0) == 0
    ensures cycleCounter & Prescaler(1) == 0 <==> cycleCounter % 64 == 0
    ensures cycleCounter & Prescaler(2) == 0 <==> cycleCounter % 256 == 0
    ensures cycleCounter & Prescaler(3) == 0 <==> cycleCounter % 1024 == 0
  {
    Mask63(cycleCounter);
    Mask255(cycleCounter);
    Mask1023(cycleCounter);
  }

  lemma Mask63(x: bv32) ensures x & 63 == x % 64 {}
  lemma Mask255(x: bv32) ensures x & 255 == x % 256 {}
  lemma Mask1023(x: bv32) ensures x & 1023 == x % 1024 {}

  /** Channel 0 cannot cascade: its control write drops count-up and clears bit 2 of its register; the others take bit 2. */
  lemma ControlCountUp(c: Channel, index: nat, value: bv16, register: bv16)
    ensures ControlSpec(c, index, value).countUp <==> index != 0 && value & 4 != 0
    ensures index == 0 ==> ControlRegisterSpec(index, register) & 4 == 0 &&
                           ControlRegisterSpec(index, register) | 4 == register | 4
    ensures index != 0 ==> ControlRegisterSpec(index, register) == register
  {
    Mask16Bits(2);
  }

  /** A control write sets irq from bit 6 and enable from bit 7, and leaves the counter and the reload value. */
  lemma ControlFlags(c: Channel, index: nat, value: bv16)
    ensures var d := ControlSpec(c, index, value);
            (d.irq <==> value & 0x40 != 0) && (d.operate <==> value & 0x80 != 0) &&
            d.counter == c.counter && d.reloadValue == c.reloadValue
  {
    Mask16Bits(6);
    Mask16Bits(7);
  }

  // -------------------------------------------------------------------
  // class Timer

  class Timer {
    /** `channels`: channel `i`'s `nextChannel` is channel `i + 1`, and channel 3 has none. */
    const channels: array<Channel>
    var cycleCounter: bv32

    ghost predicate Valid()
      reads this
    {
      channels.Length == 4
    }

    ghost function Channels(): seq<Channel>
      reads this, channels
    {
      channels[..]
    }

    /** `new Timer(gba)`: four idle channels and the counter at 0. */
    constructor ()
      ensures Valid() && Channels() == [IDLE, IDLE, IDLE, IDLE] && cycleCounter == 0
      ensures fresh(channels)
    {
      channels := new Channel[4](_ => IDLE);
      cycleCounter := 0;
      new;
      assert channels[..] == [channels[0], channels[1], channels[2], channels[3]];
    }

    /** `Timer.Cycle`: one `Channel.Cycle` per channel, in order; `cycleCounter` is left as it is. */
    method Cycle() returns (raised: seq<bv16>)
      requires Valid()
      modifies channels
      ensures Ticked(Channels(), raised) == CycleSpec(old(Channels()), cycleCounter)
    {
      ghost var chs := Channels();
      raised := [];
      for k := 0 to 4
        invariant Ticked(Channels(), raised) == CycleUpTo(chs, cycleCounter, k)
      {
        var r := ChannelCycle(k, cycleCounter);
        raised := raised + r;
      }
    }

    /** `Channel.Cycle(cycleCounter)` of channel `i`. */
    method ChannelCycle(i: nat, counter: bv32) returns (raised: seq<bv16>)
      requires Valid() && i < 4
      modifies channels
      ensures Ticked(Channels(), raised) == ChannelCycleSpec(old(Channels()), i, counter)
    {
      raised := [];
      if Counts(channels[i], counter) {
        raised := Increment(i);
      }
    }

    /** `Increment` of channel `i`. */
    method Increment(i: nat) returns (raised: seq<bv16>)
      requires Valid() && i < 4
      modifies channels
      ensures Ticked(Channels(), raised) == IncrementSpec(old(Channels()), i)
      decreases 4 - i, 0
    {
      var c := channels[i];
      channels[i] := c.(counter := c.counter + 1);
      raised := [];
      if channels[i].counter == 0 {
        if c.irq {
          raised := [IrqFlag(i)];
        }
        if i + 1 < 4 {
          var next := LastOverflowed(i + 1);
          raised := raised + next;
        }
        var d := channels[i];
        channels[i] := d.(counter := d.reloadValue);
      }
    }

    /** `LastOverflowed` of channel `i`. */
    method LastOverflowed(i: nat) returns (raised: seq<bv16>)
      requires Valid() && i < 4
      modifies channels
      ensures Ticked(Channels(), raised) == LastOverflowedSpec(old(Channels()), i)
      decreases 4 - i, 1
    {
      raised := [];
      if channels[i].countUp {
        raised := Increment(i);
      }
    }

    /** `WriteCallback_Reload` of channel `i`: only the reload value changes. */
    method WriteReload(i: nat, value: bv16)
      requires Valid() && i < 4
      modifies channels
      ensures Channels() == old(Channels())[i := old(channels[i]).(reloadValue := value)]
    {
      channels[i] := channels[i].(reloadValue := value);
    }

    /** `WriteCallback_Control` of channel `i`; `register` is the value at 0x04000102. */
    method WriteControl(i: nat, value: bv16, register: bv16) returns (register': bv16)
      requires Valid() && i < 4
      modifies channels
      ensures Channels() == old(Channels())[i := ControlSpec(old(channels[i]), i, value)]
      ensures register' == ControlRegisterSpec(i, register)
    {
      var c := channels[i];
      var prescaler: bv32 := 0;
      if value & 3 == 1 {
        prescaler := 63;
      } else if value & 3 == 2 {
        prescaler := 255;
      } else if value & 3 == 3 {
        prescaler := 1023;
      }
      var countUp := false;
      register' := register;
      if i == 0 {
        register' := register & 0xfffb;
      } else {
        countUp := BitTest16(value, 2);
      }
      channels[i] := c.(prescaler := prescaler, countUp := countUp, irq := BitTest16(value, 6), operate := BitTest16(value, 7));
    }
  }
}
