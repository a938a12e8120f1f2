// src/GBA/Bus.cs: the system bus of the C# core. Every access switches on
// bits 27:24 of the address and forwards to one peripheral; 16-bit accesses
// first clear bit 0 of the address and 32-bit accesses bits 1:0.
//
// The peripherals are other components, so a read takes their read
// functions as a parameter and a write returns the call it forwards.

module CsBus {
  import opened Bits

  /** The peripherals the bus can forward to. */
  datatype Target = Bios | Ewram | Iwram | Io | Ppu | Cartridge

  /** Access widths: `Read8`/`Write8`, `Read16`/`Write16`, `Read32`/`Write32`. */
  datatype Width = Byte | Half | Word

  /** The forwarded call: the peripheral and the (aligned) address it gets. */
  datatype Access = Access(target: Target, addr: bv32)

  /** A forwarded write of a `T`-sized value. */
  datatype Forward<T> = Forward(target: Target, addr: bv32, value: T)

  /** The read functions of the peripherals, one per width. */
  datatype Devices = Devices(read8: Target -> bv32 -> bv8, read16: Target -> bv32 -> bv16, read32: Target -> bv32 -> bv32)

  /** The switch of every access: the target of bits 27:24, `None` for its default. */
  function Route(addr: bv32): Option<Target> {
    var n := (addr >> 24) & 0xf;
    if n == 0x0 || n == 0x1 then Some(Bios)
    else if n == 0x2 then Some(Ewram)
    else if n == 0x3 then Some(Iwram)
    else if n == 0x4 then Some(Io)
    else if n == 0x5 || n == 0x6 || n == 0x7 then Some(Ppu)
    else if n == 0x8 || n == 0x9 || n == 0xa || n == 0xb || n == 0xc || n == 0xd || n == 0xe || n == 0xf then Some(Cartridge)
    else None
  }

  /** The GBA memory map by address ranges, ignoring bits 31:28 which the bus does not decode. */
  function RegionOf(addr: bv32): Target {
    var m := addr & 0x0f00_0000;
    if m < 0x0200_0000 then Bios
    else if m < 0x0300_0000 then Ewram
    else if m < 0x0400_0000 then Iwram
    else if m < 0x0500_0000 then Io
    else if m < 0x0800_0000 then Ppu
    else Cartridge
  }

  /** Every one of the 16 values of bits 27:24 has a target, the one of the memory map: the defaults are unreachable. */
  lemma RouteTotal(addr: bv32)
    ensures Route(addr) == Some(RegionOf(addr))
  {
    var n := (addr >> 24) & 0xf;
    assert addr & 0x0f00_0000 == n << 24;
  }

  /** The target depends on bits 27:24 only. */
  lemma RouteDependsOnRegionBits(a: bv32, b: bv32)
    requires a & 0x0f00_0000 == b & 0x0f00_0000
    ensures Route(a) == Route(b)
  {
    RouteTotal(a);
    RouteTotal(b);
  }

  /** The address a peripheral receives: `addr &= 0xfffffffe` for 16 bits, `addr &= 0xfffffffc` for 32. */
  function Align(w: Width, addr: bv32): bv32 {
    match w
    case Byte => addr
    case Half => addr & 0xffff_fffe
    case Word => addr & 0xffff_fffc
  }

  /** A 16-bit access clears exactly bit 0 and keeps the region. */
  lemma HalfAlign(addr: bv32)
    ensures addr & 0xffff_fffe & 1 == 0
    ensures (addr & 0xffff_fffe) | 1 == addr | 1
    ensures addr & 0xffff_fffe & 0x0f00_0000 == addr & 0x0f00_0000
  {
  }

  /** A 32-bit access clears exactly bits 1:0 and keeps the region. */
  lemma WordAlign(addr: bv32)
    ensures addr & 0xffff_fffc & 3 == 0
    ensures (addr & 0xffff_fffc) | 3 == addr | 3
    ensures addr & 0xffff_fffc & 0x0f00_0000 == addr & 0x0f00_0000
  {
  }

  /** The call an access forwards. */
  function Dispatch(w: Width, addr: bv32): Option<Access> {
    Forwarded(Align(w, addr))
  }

  /** The switch applied to an already aligned address. */
  function Forwarded(a: bv32): Option<Access> {
    match Route(a)
    case None => None
    case Some(t) => Some(Access(t, a))
  }

  /** Every access reaches the peripheral of its region, at the aligned address. */
  lemma DispatchForwards(w: Width, addr: bv32)
    ensures Dispatch(w, addr) == Some(Access(RegionOf(addr), Align(w, addr)))
  {
    match w
    case Byte =>
    case Half => HalfAlign(addr);
    case Word => WordAlign(addr);
    RouteTotal(Align(w, addr));
    RouteDependsOnRegionBits(Align(w, addr), addr);
    RouteTotal(addr);
  }

  /** A forwarded read: the peripheral's answer, or `otherwise` for the default of the switch. */
  function Perform<T>(access: Option<Access>, read: Target -> bv32 -> T, otherwise: T): T {
    match access
    case None => otherwise
    case Some(a) => read(a.target)(a.addr)
  }

  /** A forwarded write, or `None` for the default of the switch. */
  function Pass<T>(access: Option<Access>, val: T): Option<Forward<T>> {
    match access
    case None => None
    case Some(a) => Some(Forward(a.target, a.addr, val))
  }

  /** `Read8`. */
  function Read8(d: Devices, addr: bv32): bv8 {
    Perform(Dispatch(Byte, addr), d.read8, 0x00)
  }

  /** `Read16`. */
  function Read16(d: Devices, addr: bv32): bv16 {
    Perform(Dispatch(Half, addr), d.read16, 0x0000)
  }

  /** `Read32`. */
  function Read32(d: Devices, addr: bv32): bv32 {
    Perform(Dispatch(Word, addr), d.read32, 0x0000_0000)
  }

  /** `Write8`: the call it forwards, `None` for the fall-through of the switch. */
  function Write8(addr: bv32, val: bv8): Option<Forward<bv8>> {
    Pass(Dispatch(Byte, addr), val)
  }

  /** `Write16`. */
  function Write16(addr: bv32, val: bv16): Option<Forward<bv16>> {
    Pass(Dispatch(Half, addr), val)
  }

  /** `Write32`. */
  function Write32(addr: bv32, val: bv32): Option<Forward<bv32>> {
    Pass(Dispatch(Word, addr), val)
  }

  /** Each read returns what the peripheral of the address's region gives at the aligned address. */
  lemma Read8Forwards(d: Devices, addr: bv32)
    ensures Read8(d, addr) == d.read8(RegionOf(addr))(addr)
  {
    DispatchForwards(Byte, addr);
  }

  lemma Read16Forwards(d: Devices, addr: bv32)
    ensures Read16(d, addr) == d.read16(RegionOf(addr))(addr & 0xffff_fffe)
  {
    DispatchForwards(Half, addr);
  }

  lemma Read32Forwards(d: Devices, addr: bv32)
    ensures Read32(d, addr) == d.read32(RegionOf(addr))(addr & 0xffff_fffc)
  {
    DispatchForwards(Word, addr);
  }

  /** Each write reaches the peripheral of the address's region, at the aligned address, with the value unchanged. */
  lemma WritesForward(addr: bv32, v8: bv8, v16: bv16, v32: bv32)
    ensures Write8(addr, v8) == Some(Forward(RegionOf(addr), addr, v8))
    ensures Write16(addr, v16) == Some(Forward(RegionOf(addr), addr & 0xffff_fffe, v16))
    ensures Write32(addr, v32) == Some(Forward(RegionOf(addr), addr & 0xffff_fffc, v32))
  {
    DispatchForwards(Byte, addr);
    DispatchForwards(Half, addr);
    DispatchForwards(Word, addr);
  }

  // A 16-bit access is the access at the address with bit 0 cleared, and a
  // 32-bit access the one at the address with bits 1:0 cleared.

  lemma Read16Aligned(d: Devices, a: bv32)
    ensures Read16(d, a) == Read16(d, a & 0xffff_fffe)
  {
    SameAlignSameRead16(d, a, a & 0xffff_fffe);
  }

  lemma Write16Aligned(a: bv32, val: bv16)
    ensures Write16(a, val) == Write16(a & 0xffff_fffe, val)
  {
    SameAlignSameWrite16(a, a & 0xffff_fffe, val);
  }

  lemma Read32Aligned(d: Devices, a: bv32)
    ensures Read32(d, a) == Read32(d, a & 0xffff_fffc)
  {
    SameAlignSameRead32(d, a, a & 0xffff_fffc);
  }

  lemma Write32Aligned(a: bv32, val: bv32)
    ensures Write32(a, val) == Write32(a & 0xffff_fffc, val)
  {
    SameAlignSameWrite32(a, a & 0xffff_fffc, val);
  }

  lemma SameAlignSameRead16(d: Devices, a: bv32, b: bv32)
    requires Align(Half, a) == Align(Half, b)
    ensures Read16(d, a) == Read16(d, b)
  {
    SameDispatch(Half, a, b);
  }

  lemma SameAlignSameWrite16(a: bv32, b: bv32, val: bv16)
    requires Align(Half, a) == Align(Half, b)
    ensures Write16(a, val) == Write16(b, val)
  {
    SameDispatch(Half, a, b);
  }

  lemma SameAlignSameRead32(d: Devices, a: bv32, b: bv32)
    requires Align(Word, a) == Align(Word, b)
    ensures Read32(d, a) == Read32(d, b)
  {
    SameDispatch(Word, a, b);
  }

  lemma SameAlignSameWrite32(a: bv32, b: bv32, val: bv32)
    requires Align(Word, a) == Align(Word, b)
    ensures Write32(a, val) == Write32(b, val)
  {
    SameDispatch(Word, a, b);
  }

  lemma SameDispatch(w: Width, a: bv32, b: bv32)
    requires Align(w, a) == Align(w, b)
    ensures Dispatch(w, a) == Dispatch(w, b)
  {
  }
}
