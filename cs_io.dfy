// src/GBA/IO.cs: the 16-bit IO register bank of the C# core. Each register
// holds a value, a read mask, a write mask and an optional write callback.
// `InitRegisters` gives each of the 512 halfword slots below 0x04000400 its
// own register; the two halves of the internal memory control register at
// 0x04000800 and the shared null register sit outside the table.
//
// The callbacks belong to other components (the DMA channels and
// `GBA.WriteToIF`); a write returns the calls it makes, in order, and the
// caller carries them out.

module CsIo {
  import opened Bits
  import opened CsBitUtils

  /** Which write callback a register was created with. */
  datatype Callback = NoCallback | DmaCntH(channel: nat) | WriteToIF

  /** `IO.Register`. */
  datatype Register = Register(value: bv16, callback: Callback, readMask: bv16, writeMask: bv16)

  /** A call `register.WriteCallback(addr, val)` made by a write. */
  datatype CallbackCall = CallbackCall(callback: Callback, addr: bv32, value: bv16)

  /** The register objects an address can reach. */
  datatype RegisterRef = Table(index: nat) | MemoryControlLow | MemoryControlHigh | Null

  predicate InRange(ref: RegisterRef) { ref.Table? ==> ref.index < 512 }

  /** Slot numbers of some registers the other components use. */
  const DISPSTAT_SLOT: nat := 0x02
  const VCOUNT_SLOT: nat := 0x03
  const KEYINPUT_SLOT: nat := 0x98
  const KEYCNT_SLOT: nat := 0x99
  const IE_SLOT: nat := 0x100
  const IF_SLOT: nat := 0x101

  function Plain(readMask: bv16, writeMask: bv16): Register {
    Register(0, NoCallback, readMask, writeMask)
  }

  /**
   * The register `InitRegisters` creates for slot `i`, at address
   * 0x04000000 + 2 * i. Every address the switch does not list gets the
   * default of a write-only register.
   */
  function InitialRegister(i: int): Register {
    var a := 0x0400_0000 + 2 * i;
    if a == 0x0400_0000 || a == 0x0400_0002 || a == 0x0400_0004 then Plain(0xffff, 0xffff)   // DISPCNT, GREENSWP, DISPSTAT
    else if a == 0x0400_0006 then Plain(0xffff, 0x0000)                                       // VCOUNT
    else if 0x0400_0008 <= a <= 0x0400_000e then Plain(0xffff, 0xffff)                        // BG0CNT..BG3CNT
    else if a == 0x0400_0048 || a == 0x0400_004a then Plain(0xffff, 0xffff)                   // WININ, WINOUT
    else if a == 0x0400_0050 || a == 0x0400_0052 then Plain(0xffff, 0xffff)                   // BLDCNT, BLDALPHA
    else if a == 0x0400_00b2 || a == 0x0400_00b6 || a == 0x0400_00be || a == 0x0400_00c2 ||
            a == 0x0400_00ca || a == 0x0400_00ce || a == 0x0400_00da then Plain(0x0000, 0x07ff) // DMAxSAD_H, DMAxDAD_H
    else if a == 0x0400_00d6 then Plain(0x0000, 0x0fff)                                       // DMA3SAD_H
    else if a == 0x0400_00b8 || a == 0x0400_00c4 || a == 0x0400_00d0 then Plain(0x0000, 0x3fff) // DMA0..2CNT_L
    else if a == 0x0400_00ba then Register(0, DmaCntH(0), 0xffe0, 0xffe0)                     // DMA0CNT_H
    else if a == 0x0400_00c6 then Register(0, DmaCntH(1), 0xffe0, 0xffe0)                     // DMA1CNT_H
    else if a == 0x0400_00d2 then Register(0, DmaCntH(2), 0xffe0, 0xffe0)                     // DMA2CNT_H
    else if a == 0x0400_00de then Register(0, DmaCntH(3), 0xffe0, 0xffe0)                     // DMA3CNT_H
    else if a == 0x0400_0130 then Register(0xffff, NoCallback, 0x03ff, 0x0000)                // KEYINPUT
    else if a == 0x0400_0132 then Plain(0xc3ff, 0xc3ff)                                       // KEYCNT
    else if a == 0x0400_0200 then Plain(0x3fff, 0x3fff)                                       // IE
    else if a == 0x0400_0202 then Register(0, WriteToIF, 0x3fff, 0x0000)                      // IF
    else if a == 0x0400_0208 then Plain(0x0001, 0x0001)                                       // IME
    else Plain(0x0000, 0xffff)
  }

  const MEMORY_CONTROL: Register := Plain(0xffff, 0xffff)
  const NULL_REGISTER: Register := Plain(0x0000, 0xffff)

  /** The register bank as values. */
  datatype IoState = IoState(registers: seq<Register>, low: Register, high: Register, nul: Register)

  predicate WellFormed(s: IoState) { |s.registers| == 512 }

  function InitialState(): (s: IoState)
    ensures WellFormed(s)
  {
    IoState(seq(512, i => InitialRegister(i)), MEMORY_CONTROL, MEMORY_CONTROL, NULL_REGISTER)
  }

  /** Everything but the value of a register: what no write changes. */
  predicate SameShape(r: Register, q: Register) {
    r.callback == q.callback && r.readMask == q.readMask && r.writeMask == q.writeMask
  }

  /** The registers still have the masks and callbacks `InitRegisters` gave them. */
  predicate Conforms(s: IoState) {
    WellFormed(s) &&
    (forall i :: 0 <= i < 512 ==> SameShape(s.registers[i], InitialRegister(i))) &&
    SameShape(s.low, MEMORY_CONTROL) && SameShape(s.high, MEMORY_CONTROL) && SameShape(s.nul, NULL_REGISTER)
  }

  lemma InitialConforms()
    ensures Conforms(InitialState())
  {
  }

  // ------------------------------------------------------------ addressing

  /** `ConvertAddress`: every address whose low halfword is 0x0800 becomes 0x04000800. */
  function ConvertAddress(addr: bv32): bv32 {
    if addr & 0x0000_ffff == 0x0000_0800 then 0x0400_0800 else addr
  }

  function SlotIndex(addr: bv32): (k: nat)
    ensures k < 512
  {
    ((addr & 0x3ff) >> 1) as nat
  }

  /** `GetRegister`. */
  function GetRegister(addr: bv32): (ref: RegisterRef)
    ensures InRange(ref)
  {
    if addr == 0x0400_0800 then MemoryControlLow
    else if addr == 0x0400_0802 then MemoryControlHigh
    else if addr < 0x0400_0400 then Table(SlotIndex(addr))
    else Null
  }

  /** The register an access to `addr` reaches. */
  function Target(addr: bv32): (ref: RegisterRef)
    ensures InRange(ref)
  {
    GetRegister(ConvertAddress(addr))
  }

  /**
   * Addresses whose low halfword is 0x0800 reach the low half of the memory
   * control register and 0x04000802 its high half; other addresses below
   * 0x04000400 reach table slot (addr & 0x3ff) >> 1; all else reaches the
   * null register.
   */
  lemma TargetMap(addr: bv32)
    ensures addr & 0xffff == 0x0800 ==> Target(addr) == MemoryControlLow
    ensures addr == 0x0400_0802 ==> Target(addr) == MemoryControlHigh
    ensures addr & 0xffff != 0x0800 && addr < 0x0400_0400 ==> Target(addr) == Table(SlotIndex(addr))
    ensures addr & 0xffff != 0x0800 && addr != 0x0400_0802 && addr >= 0x0400_0400 ==> Target(addr) == Null
  {
  }

  /** The address `InitRegisters` gives slot `j` reaches slot `j`. */
  lemma SlotOfAddress(j: bv32)
    requires j < 512
    ensures Target(0x0400_0000 | (j << 1)) == Table(j as nat)
  {
    var a := 0x0400_0000 | (j << 1);
    assert a & 0xffff != 0x0800 && a < 0x0400_0400;
    assert (a & 0x3ff) >> 1 == j;
  }

  /** Both bytes of a halfword below 0x04000400 reach the same register. */
  lemma TargetByteNeighbours(addr: bv32)
    requires addr & 1 == 0 && addr < 0x0400_0400 && addr & 0xffff != 0x0800
    ensures Target(addr | 1) == Target(addr)
  {
  }

  function Get(s: IoState, ref: RegisterRef): Register
    requires WellFormed(s) && InRange(ref)
  {
    match ref
    case Table(i) => s.registers[i]
    case MemoryControlLow => s.low
    case MemoryControlHigh => s.high
    case Null => s.nul
  }

  function Put(s: IoState, ref: RegisterRef, reg: Register): (s': IoState)
    requires WellFormed(s) && InRange(ref)
    ensures WellFormed(s')
  {
    match ref
    case Table(i) => s.(registers := s.registers[i := reg])
    case MemoryControlLow => s.(low := reg)
    case MemoryControlHigh => s.(high := reg)
    case Null => s.(nul := reg)
  }

  lemma GetPut(s: IoState, ref: RegisterRef, reg: Register, other: RegisterRef)
    requires WellFormed(s) && InRange(ref) && InRange(other)
    ensures Get(Put(s, ref, reg), other) == if other == ref then reg else Get(s, other)
  {
  }

  // -------------------------------------------------------------- reading

  /** `Read16`: the value seen through the read mask. */
  function Read16Spec(s: IoState, addr: bv32): bv16
    requires WellFormed(s)
  {
    var reg := Get(s, Target(addr));
    reg.value & reg.readMask
  }

  /** `Read8`: the high byte of the halfword at an odd address, the low byte at an even one. */
  function Read8Spec(s: IoState, addr: bv32): bv8
    requires WellFormed(s)
  {
    var value := Read16Spec(s, addr);
    if BitTest32(addr, 0) then Hi8(value) else Lo8(value)
  }

  /** `Read32`: the halfword at `addr` below the one at `addr + 2`. */
  function Read32Spec(s: IoState, addr: bv32): bv32
    requires WellFormed(s)
  {
    Join16(Read16Spec(s, addr), Read16Spec(s, addr + 2))
  }

  /** Reading byte by byte gives the two halves of the halfword read. */
  lemma Read8Halves(s: IoState, addr: bv32)
    requires WellFormed(s) && addr & 1 == 0 && addr < 0x0400_0400 && addr & 0xffff != 0x0800
    ensures Join8(Read8Spec(s, addr), Read8Spec(s, addr | 1)) == Read16Spec(s, addr)
  {
    TargetByteNeighbours(addr);
    Join8Split(Read16Spec(s, addr));
  }

  // -------------------------------------------------------------- writing

  /** What a write leaves: the new bank and the callback calls made, in order. */
  datatype Written = Written(state: IoState, calls: seq<CallbackCall>)

  /** The bits of `val` under the write mask replace those of `current` (the `&=` and `|=` of `Write16`). */
  function Merge(current: bv16, writeMask: bv16, val: bv16): bv16 {
    (current & !writeMask) | (val & writeMask)
  }

  /** `Write16`: the masked merge, then the callback with the unconverted address and the raw value. */
  function Write16Spec(s: IoState, addr: bv32, val: bv16): Written
    requires WellFormed(s)
  {
    var ref := Target(addr);
    var reg := Get(s, ref);
    var s' := Put(s, ref, reg.(value := Merge(reg.value, reg.writeMask, val)));
    Written(s', if reg.callback == NoCallback then [] else [CallbackCall(reg.callback, addr, val)])
  }

  /** `Write32`: the low halfword at `addr`, then the high one at `addr + 2`. */
  function Write32Spec(s: IoState, addr: bv32, val: bv32): Written
    requires WellFormed(s)
  {
    var w1 := Write16Spec(s, addr, Lo16(val));
    var w2 := Write16Spec(w1.state, addr + 2, Hi16(val));
    Written(w2.state, w1.calls + w2.calls)
  }

  /** `Write8` as written: the merged halfword is computed and dropped, and the byte itself is written. */
  function Write8AsWritten(s: IoState, addr: bv32, val: bv8): Written
    requires WellFormed(s)
  {
    Write16Spec(s, addr, val as bv16)
  }

  /** The halfword `Write8` builds: `val` in the addressed byte, the readable halfword in the other. */
  function MergeByte(current: bv16, addr: bv32, val: bv8): bv16 {
    if BitTest32(addr, 0) then Join8(Lo8(current), val) else Join8(val, Hi8(current))
  }

  /** `Write8` as evidently intended: the merged halfword is written. */
  function Write8Spec(s: IoState, addr: bv32, val: bv8): Written
    requires WellFormed(s)
  {
    Write16Spec(s, addr, MergeByte(Read16Spec(s, addr), addr, val))
  }

  /**
   * A write changes only the register it reaches, and only its value: the
   * bits under the write mask come from `val`, the others stay. The callback,
   * if any, gets the address as given and the unmasked value.
   */
  lemma Write16Effect(s: IoState, addr: bv32, val: bv16, other: RegisterRef)
    requires WellFormed(s) && InRange(other)
    ensures var w := Write16Spec(s, addr, val);
            var reg := Get(s, Target(addr));
            Get(w.state, Target(addr)) == reg.(value := (reg.value & !reg.writeMask) | (val & reg.writeMask)) &&
            (other != Target(addr) ==> Get(w.state, other) == Get(s, other)) &&
            (reg.callback == NoCallback <==> w.calls == []) &&
            (reg.callback != NoCallback ==> w.calls == [CallbackCall(reg.callback, addr, val)])
  {
    GetPut(s, Target(addr), Get(s, Target(addr)).(value := Merge(Get(s, Target(addr)).value, Get(s, Target(addr)).writeMask, val)), other);
  }

  /** Writes keep every register's masks and callback. */
  lemma Write16Conforms(s: IoState, addr: bv32, val: bv16)
    requires Conforms(s)
    ensures Conforms(Write16Spec(s, addr, val).state)
  {
    var w := Write16Spec(s, addr, val);
    forall i | 0 <= i < 512
      ensures SameShape(w.state.registers[i], InitialRegister(i))
    {
      Write16Effect(s, addr, val, Table(i));
    }
  }

  /** A read after a write sees the written bits that are both writable and readable. */
  lemma Write16ThenRead16(s: IoState, addr: bv32, val: bv16)
    requires WellFormed(s)
    ensures var reg := Get(s, Target(addr));
            Read16Spec(Write16Spec(s, addr, val).state, addr) ==
            ((reg.value & !reg.writeMask) | (val & reg.writeMask)) & reg.readMask
  {
    Write16Effect(s, addr, val, Target(addr));
  }

  /** KEYINPUT has write mask 0: no write, to any address, changes its value. */
  lemma KeyInputIsReadOnly(s: IoState, addr: bv32, val: bv16)
    requires Conforms(s)
    ensures Get(Write16Spec(s, addr, val).state, Table(KEYINPUT_SLOT)).value == Get(s, Table(KEYINPUT_SLOT)).value
  {
    Write16Effect(s, addr, val, Table(KEYINPUT_SLOT));
    assert SameShape(s.registers[KEYINPUT_SLOT], InitialRegister(KEYINPUT_SLOT));
  }

  /** A register whose read and write masks are full stores what is written. */
  predicate Transparent(reg: Register) { reg.readMask == 0xffff && reg.writeMask == 0xffff }

  /** `Write32` then `Read32` round-trips through two distinct transparent registers. */
  lemma Write32ThenRead32(s: IoState, addr: bv32, val: bv32)
    requires WellFormed(s)
    requires Target(addr) != Target(addr + 2)
    requires Transparent(Get(s, Target(addr))) && Transparent(Get(s, Target(addr + 2)))
    ensures Read32Spec(Write32Spec(s, addr, val).state, addr) == val
  {
    var w1 := Write16Spec(s, addr, Lo16(val));
    Write16Effect(s, addr, Lo16(val), Target(addr + 2));
    Write16Effect(s, addr, Lo16(val), Target(addr));
    Write16Effect(w1.state, addr + 2, Hi16(val), Target(addr));
    Write16Effect(w1.state, addr + 2, Hi16(val), Target(addr + 2));
    Join16Split(val);
  }

  /** The calls of `Write32`: those of the low halfword, then those of the high one. */
  lemma Write32Calls(s: IoState, addr: bv32, val: bv32)
    requires WellFormed(s)
    ensures var w := Write32Spec(s, addr, val);
            |w.calls| <= 2 &&
            (Get(s, Target(addr)).callback != NoCallback ==>
               w.calls[0] == CallbackCall(Get(s, Target(addr)).callback, addr, Lo16(val)))
  {
    Write16Effect(s, addr, Lo16(val), Target(addr));
    Write16Effect(Write16Spec(s, addr, Lo16(val)).state, addr + 2, Hi16(val), Target(addr + 2));
  }

  /**
   * The corrected `Write8` on a transparent register stores the byte and
   * keeps the other byte of the halfword.
   */
  lemma Write8KeepsOtherByte(s: IoState, addr: bv32, val: bv8)
    requires WellFormed(s) && addr < 0x0400_0400 && addr & 0xfffe != 0x0800
    requires Transparent(Get(s, Target(addr)))
    ensures Read8Spec(Write8Spec(s, addr, val).state, addr) == val
    ensures Read8Spec(Write8Spec(s, addr, val).state, addr ^ 1) == Read8Spec(s, addr ^ 1)
  {
    var before := Read16Spec(s, addr);
    var merged := MergeByte(before, addr, val);
    var after := Write8Spec(s, addr, val).state;
    TargetOtherByte(addr);
    TransparentWriteRead(s, addr, merged);
    SameTargetSameRead(after, addr, addr ^ 1);
    SameTargetSameRead(s, addr, addr ^ 1);
    if BitTest32(addr, 0) {
      Split8Join(Lo8(before), val);
    } else {
      Split8Join(val, Hi8(before));
    }
  }

  lemma TransparentWriteRead(s: IoState, addr: bv32, val: bv16)
    requires WellFormed(s) && Transparent(Get(s, Target(addr)))
    ensures Read16Spec(Write16Spec(s, addr, val).state, addr) == val
  {
    Write16ThenRead16(s, addr, val);
  }

  lemma SameTargetSameRead(s: IoState, a: bv32, b: bv32)
    requires WellFormed(s) && Target(a) == Target(b)
    ensures Read16Spec(s, a) == Read16Spec(s, b)
  {
  }

  /** The other byte of a halfword reaches the same register. */
  lemma TargetOtherByte(addr: bv32)
    requires addr < 0x0400_0400 && addr & 0xfffe != 0x0800
    ensures Target(addr ^ 1) == Target(addr)
    ensures BitTest32(addr ^ 1, 0) == !BitTest32(addr, 0)
  {
  }

  /**
   * `Write8` as written, on BG0CNT after reset: writing 0x12 to the high
   * byte at 0x04000009 leaves the high byte 0 and puts 0x12 in the low byte.
   */
  lemma Write8AsWrittenCounterexample()
    ensures var s := Write8AsWritten(InitialState(), 0x0400_0009, 0x12).state;
            Read8Spec(s, 0x0400_0009) == 0x00 && Read8Spec(s, 0x0400_0008) == 0x12
    ensures Read8Spec(Write8Spec(InitialState(), 0x0400_0009, 0x12).state, 0x0400_0009) == 0x12
  {
    var s0 := InitialState();
    assert Target(0x0400_0009) == Table(4) && Target(0x0400_0008) == Table(4);
    assert Get(s0, Table(4)) == Plain(0xffff, 0xffff);
    Write16ThenRead16(s0, 0x0400_0009, 0x0012);
    Write16ThenRead16(s0, 0x0400_0008, 0x0012);
    Write8KeepsOtherByte(s0, 0x0400_0009, 0x12);
  }

  // ------------------------------------------------------------ the object

  /** `class IO`: the register table as an array of register values. */
  class Io {
    const registers: array<Register>
    var internalMemoryControlLow: Register
    var internalMemoryControlHigh: Register
    var nullRegister: Register

    ghost function State(): IoState
      reads this, registers
    {
      IoState(registers[..], internalMemoryControlLow, internalMemoryControlHigh, nullRegister)
    }

    ghost predicate Valid()
      reads this, registers
    {
      registers.Length == 512 && Conforms(State())
    }

    /** `new IO(gba)`, which runs `InitRegisters`. */
    constructor ()
      ensures Valid() && State() == InitialState()
    {
      registers := new Register[512];
      new;
      InitRegisters();
    }

    /** `InitRegisters`: the three loose registers, then one new register per slot. */
    method InitRegisters()
      requires registers.Length == 512
      modifies this, registers
      ensures Valid() && State() == InitialState()
    {
      internalMemoryControlHigh := MEMORY_CONTROL;
      internalMemoryControlLow := MEMORY_CONTROL;
      nullRegister := NULL_REGISTER;
      for i := 0 to 512
        invariant internalMemoryControlLow == MEMORY_CONTROL && internalMemoryControlHigh == MEMORY_CONTROL
        invariant nullRegister == NULL_REGISTER
        invariant forall k :: 0 <= k < i ==> registers[k] == InitialRegister(k)
      {
        registers[i] := InitialRegister(i);
      }
      assert registers[..] == seq(512, i => InitialRegister(i));
      InitialConforms();
    }

    /** The register object an address reaches, read. */
    function Fetch(ref: RegisterRef): Register
      reads this, registers
      requires registers.Length == 512 && InRange(ref)
    {
      match ref
      case Table(i) => registers[i]
      case MemoryControlLow => internalMemoryControlLow
      case MemoryControlHigh => internalMemoryControlHigh
      case Null => nullRegister
    }

    /** Assigns the value of the register `ref` reaches. */
    method SetValue(ref: RegisterRef, value: bv16)
      requires registers.Length == 512 && InRange(ref)
      modifies this, registers
      ensures State() == Put(old(State()), ref, old(Fetch(ref)).(value := value))
    {
      match ref
      case Table(i) => registers[i] := registers[i].(value := value);
      case MemoryControlLow => internalMemoryControlLow := internalMemoryControlLow.(value := value);
      case MemoryControlHigh => internalMemoryControlHigh := internalMemoryControlHigh.(value := value);
      case Null => nullRegister := nullRegister.(value := value);
    }

    method Write16(addr: bv32, val: bv16) returns (calls: seq<CallbackCall>)
      requires Valid()
      modifies this, registers
      ensures Valid()
      ensures Written(State(), calls) == Write16Spec(old(State()), addr, val)
    {
      ghost var s := State();
      var ref := GetRegister(ConvertAddress(addr));
      var register := Fetch(ref);
      assert register == Get(s, ref);
      SetValue(ref, Merge(register.value, register.writeMask, val));
      assert State() == Write16Spec(s, addr, val).state;
      calls := [];
      if register.callback != NoCallback {
        calls := [CallbackCall(register.callback, addr, val)];
      }
      Write16Conforms(s, addr, val);
    }

    method Write32(addr: bv32, val: bv32) returns (calls: seq<CallbackCall>)
      requires Valid()
      modifies this, registers
      ensures Valid()
      ensures Written(State(), calls) == Write32Spec(old(State()), addr, val)
    {
      var calls1 := Write16(addr, Lo16(val));
      var calls2 := Write16(addr + 2, Hi16(val));
      calls := calls1 + calls2;
    }

    /** `Write8` as the source has it (see `Write8AsWritten`). */
    method Write8(addr: bv32, val: bv8) returns (calls: seq<CallbackCall>)
      requires Valid()
      modifies this, registers
      ensures Valid()
      ensures Written(State(), calls) == Write8AsWritten(old(State()), addr, val)
    {
      var value := Read16(addr);
      if BitTest32(addr, 0) {
        value := value & 0x00ff;
        value := value | ((val as bv16) << 8);
      } else {
        value := value & 0xff00;
        value := value | (val as bv16);
      }
      calls := Write16(addr, val as bv16);
    }

    method Read16(addr: bv32) returns (v: bv16)
      requires registers.Length == 512
      ensures v == Read16Spec(State(), addr)
    {
      var register := Fetch(GetRegister(ConvertAddress(addr)));
      assert register == Get(State(), Target(addr));
      v := register.value & register.readMask;
    }

    method Read8(addr: bv32) returns (v: bv8)
      requires Valid()
      ensures v == Read8Spec(State(), addr)
    {
      var value := Read16(addr);
      if BitTest32(addr, 0) {
        v := Hi8(value);
      } else {
        v := Lo8(value);
      }
    }

    method Read32(addr: bv32) returns (v: bv32)
      requires Valid()
      ensures v == Read32Spec(State(), addr)
    {
      var lo := Read16(addr);
      var hi := Read16(addr + 2);
      v := Join16(lo, hi);
    }
  }
}
