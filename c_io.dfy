// src/core/io.c: the I/O register dispatcher of the C core. ioInit fills a
// 512-entry table, one slot per halfword of the 1 KB I/O region, with the
// component that serves the slot's address range; 16-bit accesses go to
// the slot's component, 8-bit accesses are carved out of (or merged into)
// the halfword, and 32-bit accesses are two halfword accesses.
//
// The components' own 16-bit handlers (gpuIoRead16, timerIoRead16,
// dmaIoRead16, ...) are outside this file: reads take them as the
// function `devices`, and writes return the handler calls they make, in
// order.

module CIo {
  import opened Bits

  /** The components ioInit installs. */
  datatype Component = Gpu | Timer | Keypad | Irq | Dma | Dummy

  /** A call `handler(addr, value)` of a component's 16-bit write function. */
  datatype WriteCall = WriteCall(component: Component, addr: bv32, value: bv16)

  const IO_BASE: bv32 := 0x0400_0000
  const IO_END: bv32 := 0x0400_0400
  const POSTFLG: bv32 := 0x0400_0300
  const HALTCNT: bv32 := 0x0400_0301
  const SLOT_COUNT: nat := 512

  /** The component ioInit chooses for the halfword at `addr`. */
  function ComponentOf(addr: bv32): Component {
    if IO_BASE <= addr <= 0x0400_005f then Gpu
    else if 0x0400_0100 <= addr <= 0x0400_010f then Timer
    else if 0x0400_0130 <= addr <= 0x0400_0132 then Keypad
    else if 0x0400_0200 <= addr <= 0x0400_0208 then Irq
    else if 0x0400_00b0 <= addr <= 0x0400_00df then Dma
    else Dummy
  }

  /** `(addr >> 1) & 0x1ff`: the table slot of an address. */
  function Slot(addr: bv32): (k: nat)
    ensures k < SLOT_COUNT
  {
    NineBits(addr >> 1);
    Unsigned((addr >> 1) & 0x1ff)
  }

  lemma NineBits(x: bv32)
    ensures Unsigned(x & 0x1ff) < SLOT_COUNT
  {
    UnsignedMasked(x, 0x1ff);
    assert Unsigned(0x1ff) == 511;
  }

  /** The halfword address in the I/O region whose slot `addr` shares. */
  function SlotAddress(addr: bv32): bv32 {
    IO_BASE | (addr & 0x3fe)
  }

  /** An even address of the region ioInit walks. */
  predicate InitAddress(a: bv32) {
    IO_BASE <= a < IO_END && a & 1 == 0
  }

  /** Two different halfwords of the I/O region have different slots. */
  lemma SlotsDistinct(a: bv32, b: bv32)
    requires InitAddress(a) && InitAddress(b) && a != b
    ensures Slot(a) != Slot(b)
  {
    SlotBitsDistinct(a, b);
    if Slot(a) == Slot(b) {
      UnsignedInjective((a >> 1) & 0x1ff, (b >> 1) & 0x1ff);
    }
  }

  lemma SlotBitsDistinct(a: bv32, b: bv32)
    requires InitAddress(a) && InitAddress(b) && a != b
    ensures (a >> 1) & 0x1ff != (b >> 1) & 0x1ff
  {
  }

  /** Every address shares its slot with one halfword of the region. */
  lemma SlotOfSlotAddress(addr: bv32)
    ensures InitAddress(SlotAddress(addr)) && Slot(SlotAddress(addr)) == Slot(addr)
  {
    SlotAddressBits(addr);
  }

  lemma SlotAddressBits(addr: bv32)
    ensures InitAddress(SlotAddress(addr))
    ensures (SlotAddress(addr) >> 1) & 0x1ff == (addr >> 1) & 0x1ff
  {
  }

  /** The table ioInit leaves: every halfword of the region maps to its component. */
  ghost predicate Initialized(table: seq<Component>) {
    |table| == SLOT_COUNT &&
    forall a :: InitAddress(a) ==> table[Slot(a)] == ComponentOf(a)
  }

  /** The halfwords below `addr` are installed. */
  ghost predicate InstalledBelow(table: seq<Component>, addr: bv32) {
    |table| == SLOT_COUNT &&
    forall a :: InitAddress(a) && a < addr ==> table[Slot(a)] == ComponentOf(a)
  }

  /** One iteration of ioInit installs the halfword at `addr` and keeps the ones below. */
  lemma InstallStep(t: seq<Component>, t': seq<Component>, addr: bv32)
    requires InitAddress(addr) && InstalledBelow(t, addr)
    requires t' == t[Slot(addr) := ComponentOf(addr)]
    ensures InstalledBelow(t', AddTwo(addr))
  {
    forall a | InitAddress(a) && a < AddTwo(addr)
      ensures t'[Slot(a)] == ComponentOf(a)
    {
      if a != addr {
        EvenBelow(a, addr);
        SlotsDistinct(a, addr);
      }
    }
  }

  lemma EvenBelow(a: bv32, addr: bv32)
    requires InitAddress(a) && InitAddress(addr) && a < AddTwo(addr) && a != addr
    ensures a < addr
  {
  }

  /** Once the whole region is installed, the table is initialised. */
  lemma InstalledAll(t: seq<Component>, addr: bv32)
    requires InstalledBelow(t, addr) && addr == IO_END
    ensures Initialized(t)
  {
  }

  /** After ioInit any address, in the region or not, is served by the component of its slot's halfword. */
  lemma Dispatch(table: seq<Component>, addr: bv32)
    requires Initialized(table)
    ensures table[Slot(addr)] == ComponentOf(SlotAddress(addr))
  {
    SlotOfSlotAddress(addr);
  }

  /** What the slot's 16-bit read function returns; the dummy reads 0xffff. */
  function Read16Spec(table: seq<Component>, devices: (Component, bv32) -> bv16, addr: bv32): bv16
    requires |table| == SLOT_COUNT
  {
    var c := table[Slot(addr)];
    if c == Dummy then 0xffff else devices(c, addr)
  }

  /** The calls a 16-bit write makes; the dummy ignores it. */
  function Write16Spec(table: seq<Component>, addr: bv32, v: bv16): seq<WriteCall>
    requires |table| == SLOT_COUNT
  {
    var c := table[Slot(addr)];
    if c == Dummy then [] else [WriteCall(c, addr, v)]
  }

  /** `ioRead8`: POSTFLG and HALTCNT read 0; otherwise the byte of the halfword the address selects. */
  function Read8Spec(table: seq<Component>, devices: (Component, bv32) -> bv16, addr: bv32): bv8
    requires |table| == SLOT_COUNT
  {
    if addr == POSTFLG || addr == HALTCNT then 0
    else ByteOfHalf(Read16Spec(table, devices, addr), addr)
  }

  /** The low byte at an even address and the high byte at an odd one. */
  function ByteOfHalf(h: bv16, addr: bv32): bv8 {
    if addr & 1 == 0 then Lo8(h) else Hi8(h)
  }

  /** The halfword `ioWrite8` writes: the byte in its place, the other byte as read. */
  function Merge8(h: bv16, addr: bv32, v: bv8): bv16 {
    if addr & 1 == 0 then (h & 0xff00) | (v as bv16) else (h & 0x00ff) | ((v as bv16) << 8)
  }

  /** `ioWrite8`: POSTFLG and HALTCNT are ignored; otherwise a read-modify-write of the halfword. */
  function Write8Spec(table: seq<Component>, devices: (Component, bv32) -> bv16, addr: bv32, v: bv8): seq<WriteCall>
    requires |table| == SLOT_COUNT
  {
    if addr == POSTFLG || addr == HALTCNT then []
    else Write16Spec(table, addr, Merge8(Read16Spec(table, devices, addr), addr, v))
  }

  /** `ioRead32`: the halfwords at the word-aligned address and two above it, low first. */
  function Read32Spec(table: seq<Component>, devices: (Component, bv32) -> bv16, addr: bv32): bv32
    requires |table| == SLOT_COUNT
  {
    var a := addr & 0xffff_fffc;
    Join16(Read16Spec(table, devices, a), Read16Spec(table, devices, AddTwo(a)))
  }

  /** `ioWrite32`: the low halfword to the word-aligned address, then the high one two above it. */
  function Write32Spec(table: seq<Component>, addr: bv32, v: bv32): seq<WriteCall>
    requires |table| == SLOT_COUNT
  {
    var a := addr & 0xffff_fffc;
    Write16Spec(table, a, Lo16(v)) + Write16Spec(table, AddTwo(a), Hi16(v))
  }

  function AddTwo(a: bv32): bv32 { a + 2 }

  /** A byte merged into a halfword reads back from its place, and the other byte is kept. */
  lemma Merge8Preserves(h: bv16, addr: bv32, v: bv8)
    ensures ByteOfHalf(Merge8(h, addr, v), addr) == v
    ensures addr & 1 == 0 ==> Hi8(Merge8(h, addr, v)) == Hi8(h)
    ensures addr & 1 != 0 ==> Lo8(Merge8(h, addr, v)) == Lo8(h)
  {
  }

  /** A dummy slot reads 0xffff and writes make no call. */
  lemma DummySlot(table: seq<Component>, devices: (Component, bv32) -> bv16, addr: bv32, v: bv16)
    requires Initialized(table) && ComponentOf(SlotAddress(addr)) == Dummy
    ensures Read16Spec(table, devices, addr) == 0xffff && Write16Spec(table, addr, v) == []
  {
    Dispatch(table, addr);
  }

  /** A serving slot passes the address and value through unchanged. */
  lemma ServedSlot(table: seq<Component>, devices: (Component, bv32) -> bv16, addr: bv32, v: bv16)
    requires Initialized(table) && ComponentOf(SlotAddress(addr)) != Dummy
    ensures var c := ComponentOf(SlotAddress(addr));
            Read16Spec(table, devices, addr) == devices(c, addr) && Write16Spec(table, addr, v) == [WriteCall(c, addr, v)]
  {
    Dispatch(table, addr);
  }

  /** The IE register is served by the interrupt controller and KEYINPUT by the keypad. */
  lemma KnownRegisters(table: seq<Component>)
    requires Initialized(table)
    ensures table[Slot(0x0400_0200)] == Irq && table[Slot(0x0400_0130)] == Keypad
    ensures table[Slot(0x0400_00ba)] == Dma && table[Slot(0x0400_0102)] == Timer && table[Slot(0x0400_0004)] == Gpu
  {
    Dispatch(table, 0x0400_0200);
    Dispatch(table, 0x0400_0130);
    Dispatch(table, 0x0400_00ba);
    Dispatch(table, 0x0400_0102);
    Dispatch(table, 0x0400_0004);
  }

  /** A 32-bit write writes the two halfwords of the value at an aligned address, low first. */
  lemma Write32Halves(table: seq<Component>, addr: bv32, v: bv32)
    requires Initialized(table)
    requires ComponentOf(SlotAddress(addr & 0xffff_fffc)) != Dummy
    requires ComponentOf(SlotAddress(AddTwo(addr & 0xffff_fffc))) != Dummy
    ensures var calls := Write32Spec(table, addr, v);
            |calls| == 2 && calls[0].addr & 3 == 0 && calls[1].addr == AddTwo(calls[0].addr) &&
            Join16(calls[0].value, calls[1].value) == v
  {
    var a := addr & 0xffff_fffc;
    Dispatch(table, a);
    Dispatch(table, AddTwo(a));
    Join16Split(v);
  }

  /** The function-pointer tables of io.c; `s_ioReadFunc` and `s_ioWriteFunc` always receive
      the same component, so one array stands for both. */
  class Io {
    const table: array<Component>

    ghost predicate Valid()
      reads this
    {
      table.Length == SLOT_COUNT
    }

    constructor ()
      ensures Valid() && fresh(table)
    {
      table := new Component[SLOT_COUNT](_ => Dummy);
    }

    /** `ioInit`: every halfword address of the region installs its component in its slot. */
    method Init()
      requires Valid()
      modifies table
      ensures Initialized(table[..])
    {
      var addr: bv32 := IO_BASE;
      while addr < IO_END
        invariant IO_BASE <= addr <= IO_END && addr & 1 == 0
        invariant InstalledBelow(table[..], addr)
        decreases IO_END - addr
      {
        InstallStep(table[..], table[..][Slot(addr) := ComponentOf(addr)], addr);
        table[Slot(addr)] := ComponentOf(addr);
        addr := AddTwo(addr);
      }
      InstalledAll(table[..], addr);
    }

    method Read16(devices: (Component, bv32) -> bv16, addr: bv32) returns (v: bv16)
      requires Valid()
      ensures v == Read16Spec(table[..], devices, addr)
    {
      var c := table[Slot(addr)];
      if c == Dummy {
        v := 0xffff;
      } else {
        v := devices(c, addr);
      }
    }

    method Write16(addr: bv32, v: bv16) returns (calls: seq<WriteCall>)
      requires Valid()
      ensures calls == Write16Spec(table[..], addr, v)
    {
      var c := table[Slot(addr)];
      if c == Dummy {
        calls := [];
      } else {
        calls := [WriteCall(c, addr, v)];
      }
    }

    method Read8(devices: (Component, bv32) -> bv16, addr: bv32) returns (v: bv8)
      requires Valid()
      ensures v == Read8Spec(table[..], devices, addr)
    {
      if addr == POSTFLG || addr == HALTCNT {
        v := 0;
      } else {
        var h := Read16(devices, addr);
        if addr & 1 == 0 {
          v := Lo8(h);
        } else {
          v := Hi8(h);
        }
      }
    }

    method Write8(devices: (Component, bv32) -> bv16, addr: bv32, v: bv8) returns (calls: seq<WriteCall>)
      requires Valid()
      ensures calls == Write8Spec(table[..], devices, addr, v)
    {
      if addr == POSTFLG || addr == HALTCNT {
        calls := [];
      } else {
        var h := Read16(devices, addr);
        calls := Write16(addr, Merge8(h, addr, v));
      }
    }

    method Read32(devices: (Component, bv32) -> bv16, addr: bv32) returns (v: bv32)
      requires Valid()
      ensures v == Read32Spec(table[..], devices, addr)
    {
      var a := addr & 0xffff_fffc;
      var lo := Read16(devices, a);
      var hi := Read16(devices, AddTwo(a));
      v := Join16(lo, hi);
    }

    method Write32(addr: bv32, v: bv32) returns (calls: seq<WriteCall>)
      requires Valid()
      ensures calls == Write32Spec(table[..], addr, v)
    {
      var a := addr & 0xffff_fffc;
      var first := Write16(a, Lo16(v));
      var second := Write16(AddTwo(a), Hi16(v));
      calls := first + second;
    }
  }
}
