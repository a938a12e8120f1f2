// src/GBA/PPU.cs: the picture processing unit of the C# core, as far as
// its memories and its timing go. Palette RAM (1 KB), VRAM (96 KB) and OAM
// (1 KB) are byte arrays behind `Read8` and `Write16`; `Write8` stores the
// byte duplicated into a halfword, and the inherited `Read16`, `Read32` and
// `Write32` go through `Read8` and `Write8`. `Cycle` steps the dot clock:
// one column every four cycles, 308 columns a row, 228 rows a frame, and it
// keeps the status bits of DISPSTAT.
//
// DISPSTAT and VCOUNT are registers of the IO bank; `Cycle` takes DISPSTAT's
// value and returns its new value, the VCOUNT store, the interrupt bits it
// raises with `SetInterruptFlag`, and whether it signals a frame or draws a
// line. The pixels drawn are not modelled.

module CsPpu {
  import opened Bits
  import opened CsBitUtils
  import CsBusPeripheral

  const PALETTE_SIZE: nat := 1024
  const VRAM_SIZE: nat := 98304
  const OAM_SIZE: nat := 1024

  // ---------------------------------------------------------------------
  // Memories

  datatype Memory = Memory(palette: seq<bv8>, vram: seq<bv8>, oam: seq<bv8>)

  /** The array sizes the constructor allocates. */
  predicate Sized(m: Memory) {
    |m.palette| == PALETTE_SIZE && |m.vram| == VRAM_SIZE && |m.oam| == OAM_SIZE
  }

  /** The `(addr & 0x0f000000) >> 24` both accessors switch on: 5 palette, 6 VRAM, 7 OAM. */
  function Area(addr: bv32): bv32 { (addr & 0x0f00_0000) >> 24 }

  /** The palette or OAM byte `Read8` reads. */
  function ByteIndex(addr: bv32): nat { Unsigned(addr & 0x3ff) }

  /** The first of the two palette or OAM bytes `Write16` stores. */
  function PairIndex(addr: bv32): nat { Unsigned(addr & 0x3fe) }

  /** The VRAM offset of both accessors: a 128 KB window whose top 32 KB fold back onto the 32 KB below. */
  function VramOffset(addr: bv32): bv32 {
    var a := addr & 0x1_ffff;
    if a >= 0x1_8000 then a & 0x1_7fff else a
  }

  function VramIndex(addr: bv32): nat { Unsigned(VramOffset(addr)) }

  /** Offsets 0x18000 and above land on 0x10000..0x17fff, and every offset is inside the 96 KB. */
  lemma VramOffsetFolds(addr: bv32)
    ensures VramOffset(addr) < 0x1_8000
    ensures addr & 0x1_ffff < 0x1_8000 ==> VramOffset(addr) == addr & 0x1_ffff
    ensures addr & 0x1_ffff >= 0x1_8000 ==>
              VramOffset(addr) == (addr & 0x1_ffff) - 0x8000 && 0x1_0000 <= VramOffset(addr)
  {
  }

  // Every index the accessors compute is inside its array, except the
  // byte after the last VRAM byte (see `Write16`).

  lemma ByteIndexInRange(addr: bv32)
    ensures ByteIndex(addr) < PALETTE_SIZE
  {
    UnsignedMasked(addr, 0x3ff);
  }

  lemma PairIndexInRange(addr: bv32)
    ensures PairIndex(addr) + 1 < PALETTE_SIZE
  {
    UnsignedMasked(addr, 0x3fe);
  }

  lemma VramIndexInRange(addr: bv32)
    ensures VramIndex(addr) < VRAM_SIZE
  {
    VramOffsetFolds(addr);
    BelowVramSize(VramOffset(addr));
  }

  lemma BelowVramSize(v: bv32)
    requires v < 0x1_8000
    ensures Unsigned(v) < VRAM_SIZE
  {
    VramBytes(v);
  }

  lemma VramBytes(v: bv32)
    requires v < 0x1_8000
    ensures ByteOf(v, 3) == 0
    ensures ByteOf(v, 2) == 0 || (ByteOf(v, 2) == 1 && ByteOf(v, 1) < 0x80)
  {
  }

  /** `Read8`: the byte of the area's array; 0xff outside the three areas. */
  function Read8Spec(m: Memory, addr: bv32): bv8 {
    var area := Area(addr);
    if area == 0x5 then Peek(m.palette, ByteIndex(addr))
    else if area == 0x6 then Peek(m.vram, VramIndex(addr))
    else if area == 0x7 then Peek(m.oam, ByteIndex(addr))
    else 0xff
  }

  /** The memories as the `Read8` the inherited accesses are built on. */
  function Reader(m: Memory): bv32 -> bv8 {
    a => Read8Spec(m, a)
  }

  /**
   * The memories after a write, and whether it stopped on an array index
   * out of range (an `IndexOutOfRangeException` once the first byte is stored).
   */
  datatype Written = Written(mem: Memory, fault: bool)

  /** `Write16` as written: palette and OAM clear bit 0 of the offset, VRAM does not. */
  function Write16Spec(m: Memory, addr: bv32, val: bv16): Written {
    var area := Area(addr);
    if area == 0x5 then
      var k := PairIndex(addr);
      Written(m.(palette := Poke(Poke(m.palette, k, Lo8(val)), k + 1, Hi8(val))), false)
    else if area == 0x6 then
      var k := VramIndex(addr);
      var vram := Poke(m.vram, k, Lo8(val));
      if k + 1 < |m.vram| then Written(m.(vram := Poke(vram, k + 1, Hi8(val))), false)
      else Written(m.(vram := vram), true)
    else if area == 0x7 then
      var k := PairIndex(addr);
      Written(m.(oam := Poke(Poke(m.oam, k, Lo8(val)), k + 1, Hi8(val))), false)
    else Written(m, false)
  }

  /** `Write8`: the halfword `(val << 8) | val`. */
  function Write8Spec(m: Memory, addr: bv32, val: bv8): Written {
    Write16Spec(m, addr, Join8(val, val))
  }

  /** `Write8` calls made in order, as the inherited `Write16` and `Write32` make them; a fault ends the sequence. */
  function WriteBytes(m: Memory, ws: seq<CsBusPeripheral.ByteWrite>): Written
    decreases |ws|
  {
    if ws == [] then Written(m, false)
    else
      var w := Write8Spec(m, ws[0].addr, ws[0].value);
      if w.fault then w else WriteBytes(w.mem, ws[1..])
  }

  /** A sequence of byte writes in two parts: the second runs only if the first did not fault. */
  lemma {:induction false} WriteBytesAppend(m: Memory, a: seq<CsBusPeripheral.ByteWrite>, b: seq<CsBusPeripheral.ByteWrite>)
    ensures WriteBytes(m, a + b) == var w := WriteBytes(m, a); if w.fault then w else WriteBytes(w.mem, b)
    decreases |a|
  {
    if a == [] {
      assert a + b == b;
    } else {
      assert (a + b)[0] == a[0] && (a + b)[1..] == a[1..] + b;
      var w := Write8Spec(m, a[0].addr, a[0].value);
      if !w.fault {
        WriteBytesAppend(w.mem, a[1..], b);
      }
    }
  }

  /** Two byte writes: the second runs only if the first did not fault. */
  lemma WriteBytesTwo(m: Memory, w0: CsBusPeripheral.ByteWrite, w1: CsBusPeripheral.ByteWrite)
    ensures WriteBytes(m, [w0, w1]) ==
            var a := Write8Spec(m, w0.addr, w0.value); if a.fault then a else Write8Spec(a.mem, w1.addr, w1.value)
  {
    assert [w0, w1][1..] == [w1];
    assert [w1][1..] == [];
    var a := Write8Spec(m, w0.addr, w0.value);
    if !a.fault {
      var b := Write8Spec(a.mem, w1.addr, w1.value);
      assert WriteBytes(a.mem, [w1]) == if b.fault then b else WriteBytes(b.mem, []);
    }
  }

  // Palette and OAM halfwords.

  // In palette RAM and OAM the two bytes of a halfword are the pair `Write16` stores.

  lemma PairArea(addr: bv32)
    requires addr & 1 == 0
    ensures Area(addr + 1) == Area(addr)
  {
    PlusOne(addr);
    AreaSetBit0(addr);
  }

  lemma PairLow(addr: bv32)
    requires addr & 1 == 0
    ensures ByteIndex(addr) == PairIndex(addr)
  {
    EvenLowBits(addr);
  }

  lemma PairHigh(addr: bv32)
    requires addr & 1 == 0
    ensures ByteIndex(addr + 1) == PairIndex(addr) + 1
  {
    PlusOne(addr);
    OddLowBits(addr);
    UnsignedSetBit0(addr & 0x3fe);
  }

  lemma EvenLowBits(addr: bv32)
    requires addr & 1 == 0
    ensures addr & 0x3ff == addr & 0x3fe
  {
  }

  lemma OddLowBits(addr: bv32)
    ensures (addr | 1) & 0x3ff == (addr & 0x3fe) | 1 && (addr & 0x3fe) & 1 == 0
  {
  }

  /** A small area (palette RAM, OAM). */
  predicate SmallArea(addr: bv32) { Area(addr) == 0x5 || Area(addr) == 0x7 }

  /** The bytes of the small area of `addr`. */
  function SmallBytes(m: Memory, addr: bv32): seq<bv8> {
    if Area(addr) == 0x5 then m.palette else m.oam
  }

  /** `Write16` to palette RAM or OAM stores the two bytes of the halfword and nothing else. */
  lemma Write16Small(m: Memory, addr: bv32, val: bv16)
    requires Sized(m) && SmallArea(addr)
    ensures var w := Write16Spec(m, addr, val);
            var k := PairIndex(addr);
            !w.fault && Sized(w.mem) && w.mem.vram == m.vram &&
            SmallBytes(w.mem, addr) == SmallBytes(m, addr)[k := Lo8(val)][k + 1 := Hi8(val)] &&
            (Area(addr) == 0x5 ==> w.mem.oam == m.oam) && (Area(addr) == 0x7 ==> w.mem.palette == m.palette)
  {
    PairIndexInRange(addr);
  }

  /** On palette RAM and OAM, `Write16` then the inherited `Read16` gives the halfword back. */
  lemma Write16ThenRead16Small(m: Memory, addr: bv32, val: bv16)
    requires Sized(m) && SmallArea(addr) && addr & 1 == 0
    ensures CsBusPeripheral.Read16(Reader(Write16Spec(m, addr, val).mem), addr) == val
  {
    var m' := Write16Spec(m, addr, val).mem;
    Write16Pair(m, addr, val, m');
    PairArea(addr);
    PairLow(addr);
    PairHigh(addr);
    Join8Split(val);
  }

  lemma Write16Pair(m: Memory, addr: bv32, val: bv16, m': Memory)
    requires Sized(m) && SmallArea(addr) && m' == Write16Spec(m, addr, val).mem
    ensures Peek(SmallBytes(m', addr), PairIndex(addr)) == Lo8(val)
    ensures Peek(SmallBytes(m', addr), PairIndex(addr) + 1) == Hi8(val)
  {
    Write16Small(m, addr, val);
  }

  /** On palette RAM and OAM, `Write8` stores its byte into both bytes of the halfword holding `addr`. */
  lemma Write8Duplicates(m: Memory, addr: bv32, val: bv8)
    requires Sized(m) && SmallArea(addr)
    ensures var m' := Write8Spec(m, addr, val).mem;
            Read8Spec(m', addr & 0xffff_fffe) == val && Read8Spec(m', (addr & 0xffff_fffe) + 1) == val
  {
    var m' := Write8Spec(m, addr, val).mem;
    Write16Pair(m, addr, Join8(val, val), m');
    Split8Join(val, val);
    ReadPair(m', addr, addr & 0xffff_fffe);
  }

  /** The bytes at the even address of a halfword and the one after it are the pair of `PairIndex`. */
  lemma ReadPair(m: Memory, addr: bv32, e: bv32)
    requires SmallArea(addr) && e == addr & 0xffff_fffe
    ensures Read8Spec(m, e) == Peek(SmallBytes(m, addr), PairIndex(addr))
    ensures Read8Spec(m, e + 1) == Peek(SmallBytes(m, addr), PairIndex(addr) + 1)
  {
    HalfwordStart(addr);
    ReadEven(m, e);
    ReadOdd(m, e);
  }

  lemma ReadEven(m: Memory, e: bv32)
    requires SmallArea(e) && e & 1 == 0
    ensures Read8Spec(m, e) == Peek(SmallBytes(m, e), PairIndex(e))
  {
    PairLow(e);
  }

  lemma ReadOdd(m: Memory, e: bv32)
    requires SmallArea(e) && e & 1 == 0
    ensures Read8Spec(m, e + 1) == Peek(SmallBytes(m, e), PairIndex(e) + 1)
  {
    PairArea(e);
    PairHigh(e);
  }

  lemma HalfwordStart(addr: bv32)
    ensures (addr & 0xffff_fffe) & 1 == 0
    ensures Area(addr & 0xffff_fffe) == Area(addr)
    ensures PairIndex(addr & 0xffff_fffe) == PairIndex(addr)
  {
    HalfwordBits(addr);
  }

  lemma HalfwordBits(addr: bv32)
    ensures (addr & 0xffff_fffe) & 1 == 0
    ensures Area(addr & 0xffff_fffe) == Area(addr)
    ensures (addr & 0xffff_fffe) & 0x3fe == addr & 0x3fe
  {
  }

  // VRAM halfwords.

  lemma PlusOne(addr: bv32)
    requires addr & 1 == 0
    ensures addr + 1 == addr | 1
  {
  }

  lemma AreaSetBit0(addr: bv32)
    ensures Area(addr | 1) == Area(addr)
  {
  }

  /** At an even address, the VRAM byte after the one of `addr` is the one of `addr + 1`. */
  lemma VramNextIndex(addr: bv32)
    requires addr & 1 == 0
    ensures Area(addr + 1) == Area(addr) && VramIndex(addr + 1) == VramIndex(addr) + 1
  {
    PlusOne(addr);
    AreaSetBit0(addr);
    VramIndexSetBit0(addr, addr + 1);
  }

  lemma VramIndexSetBit0(addr: bv32, b: bv32)
    requires addr & 1 == 0 && b == addr | 1
    ensures VramIndex(b) == VramIndex(addr) + 1
  {
    VramSetBit0Index(addr);
  }

  lemma VramSetBit0Index(addr: bv32)
    requires addr & 1 == 0
    ensures VramIndex(addr | 1) == VramIndex(addr) + 1
  {
    if addr & 0x1_ffff >= 0x1_8000 {
      FoldedIndex(addr);
      FoldedIndexSetBit0(addr);
      MaskedSetBit0(addr, 0x1_7fff);
    } else {
      UnfoldedIndex(addr);
      UnfoldedIndexSetBit0(addr);
      MaskedSetBit0(addr, 0x1_ffff);
    }
  }

  // In each window the index is the address under one mask.

  lemma FoldedIndex(addr: bv32)
    requires addr & 0x1_ffff >= 0x1_8000
    ensures VramIndex(addr) == Unsigned(addr & 0x1_7fff)
  {
    assert VramOffset(addr) == addr & 0x1_7fff;
  }

  lemma FoldedIndexSetBit0(addr: bv32)
    requires addr & 0x1_ffff >= 0x1_8000
    ensures VramIndex(addr | 1) == Unsigned((addr | 1) & 0x1_7fff)
  {
    FoldedSetBit0Window(addr);
    FoldedIndex(addr | 1);
  }

  lemma FoldedSetBit0Window(addr: bv32)
    requires addr & 0x1_ffff >= 0x1_8000
    ensures (addr | 1) & 0x1_ffff >= 0x1_8000
  {
  }

  lemma UnfoldedIndex(addr: bv32)
    requires addr & 0x1_ffff < 0x1_8000
    ensures VramIndex(addr) == Unsigned(addr & 0x1_ffff)
  {
  }

  lemma UnfoldedIndexSetBit0(addr: bv32)
    requires addr & 0x1_ffff < 0x1_8000 && addr & 1 == 0
    ensures VramIndex(addr | 1) == Unsigned((addr | 1) & 0x1_ffff)
  {
    UnfoldedSetBit0Window(addr);
    UnfoldedIndex(addr | 1);
  }

  lemma UnfoldedSetBit0Window(addr: bv32)
    requires addr & 0x1_ffff < 0x1_8000 && addr & 1 == 0
    ensures (addr | 1) & 0x1_ffff < 0x1_8000
  {
  }

  /** Setting bit 0 of an even address adds one to its value under a mask that keeps bit 0. */
  lemma MaskedSetBit0(addr: bv32, mask: bv32)
    requires addr & 1 == 0 && mask & 1 == 1
    ensures Unsigned((addr | 1) & mask) == Unsigned(addr & mask) + 1
  {
    MaskSetBit0(addr, mask);
    UnsignedSetBit0(addr & mask);
  }

  lemma MaskSetBit0(addr: bv32, mask: bv32)
    requires addr & 1 == 0 && mask & 1 == 1
    ensures (addr | 1) & mask == (addr & mask) | 1 && (addr & mask) & 1 == 0
  {
  }

  /** `Write16` to VRAM at an even address stores the two bytes of the halfword and nothing else. */
  lemma Write16Vram(m: Memory, addr: bv32, val: bv16)
    requires Sized(m) && Area(addr) == 0x6 && addr & 1 == 0
    ensures var w := Write16Spec(m, addr, val);
            var k := VramIndex(addr);
            !w.fault && Sized(w.mem) && w.mem.palette == m.palette && w.mem.oam == m.oam &&
            w.mem.vram == m.vram[k := Lo8(val)][k + 1 := Hi8(val)]
  {
    VramNextIndex(addr);
    VramIndexInRange(addr + 1);
  }

  /** On VRAM, `Write16` at an even address then the inherited `Read16` gives the halfword back. */
  lemma Write16ThenRead16Vram(m: Memory, addr: bv32, val: bv16)
    requires Sized(m) && Area(addr) == 0x6 && addr & 1 == 0
    ensures CsBusPeripheral.Read16(Reader(Write16Spec(m, addr, val).mem), addr) == val
  {
    var m' := Write16Spec(m, addr, val).mem;
    Write16VramPair(m, addr, val, m');
    VramNextIndex(addr);
    Join8Split(val);
  }

  lemma Write16VramPair(m: Memory, addr: bv32, val: bv16, m': Memory)
    requires Sized(m) && Area(addr) == 0x6 && addr & 1 == 0 && m' == Write16Spec(m, addr, val).mem
    ensures Peek(m'.vram, VramIndex(addr)) == Lo8(val)
    ensures Peek(m'.vram, VramIndex(addr) + 1) == Hi8(val)
  {
    Write16Vram(m, addr, val);
  }

  /** A VRAM `Write16` runs past the array exactly when the offset is the last byte, 0x17fff. */
  lemma Write16VramFault(m: Memory, addr: bv32, val: bv16)
    requires Sized(m) && Area(addr) == 0x6
    ensures Write16Spec(m, addr, val).fault <==> VramOffset(addr) == 0x1_7fff
  {
    VramIndexInRange(addr);
    LastVramByte(VramOffset(addr));
  }

  /** The offset 0x17fff, and no other, is the index of the last VRAM byte. */
  lemma LastVramByte(v: bv32)
    ensures Unsigned(v) == VRAM_SIZE - 1 <==> v == 0x1_7fff
  {
    LastOffset();
    if Unsigned(v) == VRAM_SIZE - 1 {
      OnlyLastOffset(v);
    }
  }

  lemma LastOffset()
    ensures Unsigned(0x1_7fff) == VRAM_SIZE - 1
  {
  }

  lemma OnlyLastOffset(v: bv32)
    requires Unsigned(v) == VRAM_SIZE - 1
    ensures v == 0x1_7fff
  {
    LastOffset();
    UnsignedInjective(v, 0x1_7fff);
  }

  /**
   * As written, `Write8` to VRAM does not align: at an odd offset the byte
   * lands at the offset and the one after, the low byte of the next halfword,
   * and at offset 0x17fff the second store is past the array.
   */
  lemma VramWrite8AsWrittenCounterexample(m: Memory, val: bv8)
    requires Sized(m)
    ensures Write8Spec(m, 0x0601_7fff, val).fault
    ensures var v := Write8Spec(m, 0x0600_0001, val).mem.vram;
            v[0] == m.vram[0] && v[1] == val && v[2] == val
  {
    Write16VramFault(m, 0x0601_7fff, Join8(val, val));
    Split8Join(val, val);
    assert VramIndex(0x0600_0001) == 1;
  }

  /** `Write16` as intended: the address aligned to the halfword in VRAM too, as palette and OAM already do. */
  function CorrectedWrite16(m: Memory, addr: bv32, val: bv16): Written {
    Write16Spec(m, addr & 0xffff_fffe, val)
  }

  function CorrectedWrite8(m: Memory, addr: bv32, val: bv8): Written {
    CorrectedWrite16(m, addr, Join8(val, val))
  }

  /** On palette RAM and OAM the intended `Write16` is the one written. */
  lemma CorrectedWrite16OnSmallAreas(m: Memory, addr: bv32, val: bv16)
    requires SmallArea(addr)
    ensures CorrectedWrite16(m, addr, val) == Write16Spec(m, addr, val)
  {
    HalfwordStart(addr);
  }

  /** The intended `Write16` never runs past an array. */
  lemma CorrectedWrite16InRange(m: Memory, addr: bv32, val: bv16)
    requires Sized(m)
    ensures !CorrectedWrite16(m, addr, val).fault && Sized(CorrectedWrite16(m, addr, val).mem)
  {
    var e := addr & 0xffff_fffe;
    HalfwordStart(addr);
    if Area(e) == 0x6 {
      Write16Vram(m, e, val);
    } else if SmallArea(e) {
      Write16Small(m, e, val);
    }
  }

  /** With the intended `Write16`, `Write8` fills the whole halfword holding `addr` in all three memories. */
  lemma CorrectedWrite8Duplicates(m: Memory, addr: bv32, val: bv8)
    requires Sized(m) && 0x5 <= Area(addr) <= 0x7
    ensures var m' := CorrectedWrite8(m, addr, val).mem;
            Read8Spec(m', addr & 0xffff_fffe) == val && Read8Spec(m', (addr & 0xffff_fffe) + 1) == val
  {
    if Area(addr) == 0x6 {
      var e := addr & 0xffff_fffe;
      HalfwordStart(addr);
      CorrectedVramWrite8(m, e, val);
    } else {
      CorrectedWrite16OnSmallAreas(m, addr, Join8(val, val));
      Write8Duplicates(m, addr, val);
    }
  }

  lemma CorrectedVramWrite8(m: Memory, e: bv32, val: bv8)
    requires Sized(m) && Area(e) == 0x6 && e & 1 == 0
    ensures var m' := Write16Spec(m, e, Join8(val, val)).mem;
            Read8Spec(m', e) == val && Read8Spec(m', e + 1) == val
  {
    Write16Vram(m, e, Join8(val, val));
    VramNextIndex(e);
    Split8Join(val, val);
  }

  // The inherited `Write32`. Its `Write16` is the base class's, which
  // calls the overriding `Write8` twice, so every byte of the word is
  // written as a duplicated halfword and the second byte of each pair
  // overwrites the first.

  /** The inherited `Write32`: four `Write8` calls, low byte first. */
  function Write32AsWritten(m: Memory, addr: bv32, val: bv32): Written {
    WriteBytes(m, CsBusPeripheral.Write32(addr, val))
  }

  /** The inherited `Write32` is two inherited `Write16` calls; the second runs only if the first did not fault. */
  lemma Write32Halves(m: Memory, addr: bv32, val: bv32, next: bv32)
    requires next == addr + 2
    ensures Write32AsWritten(m, addr, val) ==
            var w := WriteBytes(m, CsBusPeripheral.Write16(addr, Lo16(val)));
            if w.fault then w else WriteBytes(w.mem, CsBusPeripheral.Write16(next, Hi16(val)))
  {
    WriteBytesAppend(m, CsBusPeripheral.Write16(addr, Lo16(val)), CsBusPeripheral.Write16(next, Hi16(val)));
  }

  /** Writing 0x11223344 to the start of palette RAM stores 0x11113333. */
  lemma Write32AsWrittenCounterexample(m: Memory)
    requires Sized(m)
    ensures CsBusPeripheral.Read32(Reader(Write32AsWritten(m, 0x0500_0000, 0x1122_3344).mem), 0x0500_0000) == 0x1111_3333
  {
    Write32AsWrittenBytes(m);
    assert ByteIndex(0x0500_0000) == 0 && ByteIndex(0x0500_0001) == 1;
    assert ByteIndex(0x0500_0002) == 2 && ByteIndex(0x0500_0003) == 3;
  }

  /** The palette bytes that write leaves: each byte of the word duplicated over its halfword, the second overwriting the first. */
  lemma Write32AsWrittenBytes(m: Memory)
    requires Sized(m)
    ensures var p := Write32AsWritten(m, 0x0500_0000, 0x1122_3344).mem.palette;
            |p| == PALETTE_SIZE && p[0] == 0x33 && p[1] == 0x33 && p[2] == 0x11 && p[3] == 0x11
  {
    CsBusPeripheral.Write32Bytes(0x0500_0000, 0x1122_3344);
    var ws := CsBusPeripheral.Write32(0x0500_0000, 0x1122_3344);
    assert ws == [CsBusPeripheral.ByteWrite(0x0500_0000, 0x44), CsBusPeripheral.ByteWrite(0x0500_0001, 0x33),
                  CsBusPeripheral.ByteWrite(0x0500_0002, 0x22), CsBusPeripheral.ByteWrite(0x0500_0003, 0x11)];
    assert PairIndex(0x0500_0000) == 0 && PairIndex(0x0500_0001) == 0;
    assert PairIndex(0x0500_0002) == 2 && PairIndex(0x0500_0003) == 2;
    var m1 := Write8Spec(m, 0x0500_0000, 0x44).mem;
    var m2 := Write8Spec(m1, 0x0500_0001, 0x33).mem;
    var m3 := Write8Spec(m2, 0x0500_0002, 0x22).mem;
    var m4 := Write8Spec(m3, 0x0500_0003, 0x11).mem;
    assert ws[1..][1..][1..][1..] == [];
    assert Write32AsWritten(m, 0x0500_0000, 0x1122_3344).mem == m4;
  }

  /** `Write32` as intended: the low halfword, then the high one, each with the intended `Write16`. */
  function CorrectedWrite32(m: Memory, addr: bv32, val: bv32): Written {
    var w := CorrectedWrite16(m, addr, Lo16(val));
    if w.fault then w else CorrectedWrite16(w.mem, addr + 2, Hi16(val))
  }

  /** On palette RAM and OAM, the intended `Write32` then `Read32` at a word address gives the word back. */
  lemma CorrectedWrite32ThenRead32(m: Memory, addr: bv32, val: bv32)
    requires Sized(m) && SmallArea(addr) && addr & 3 == 0
    ensures CsBusPeripheral.Read32(Reader(CorrectedWrite32(m, addr, val).mem), addr) == val
  {
    WordHalves(addr);
    var w1 := CorrectedWrite16(m, addr, Lo16(val));
    assert w1 == Write16Spec(m, addr, Lo16(val)) by {
      CorrectedWrite16OnSmallAreas(m, addr, Lo16(val));
    }
    assert !w1.fault && Sized(w1.mem) by {
      Write16Small(m, addr, Lo16(val));
    }
    var m1 := w1.mem;
    assert CsBusPeripheral.Read16(Reader(m1), addr) == Lo16(val) by {
      Write16ThenRead16Small(m, addr, Lo16(val));
    }
    var m2 := Write16Spec(m1, addr + 2, Hi16(val)).mem;
    assert CorrectedWrite32(m, addr, val).mem == m2 by {
      CorrectedWrite16OnSmallAreas(m1, addr + 2, Hi16(val));
    }
    assert CsBusPeripheral.Read16(Reader(m2), addr + 2) == Hi16(val) by {
      Write16ThenRead16Small(m1, addr + 2, Hi16(val));
    }
    assert CsBusPeripheral.Read16(Reader(m2), addr) == Lo16(val) by {
      Write16NextPairFrame(m1, addr, addr + 2, Hi16(val));
    }
    Join16Split(val);
  }

  /** `Write16` to the next pair of a small area leaves the halfword at `addr`. */
  lemma Write16NextPairFrame(m: Memory, addr: bv32, b: bv32, val: bv16)
    requires Sized(m) && SmallArea(addr) && addr & 1 == 0
    requires Area(b) == Area(addr) && PairIndex(b) == PairIndex(addr) + 2
    ensures CsBusPeripheral.Read16(Reader(Write16Spec(m, b, val).mem), addr) == CsBusPeripheral.Read16(Reader(m), addr)
  {
    var m' := Write16Spec(m, b, val).mem;
    assert SmallBytes(m', b) == SmallBytes(m, b)[PairIndex(b) := Lo8(val)][PairIndex(b) + 1 := Hi8(val)] by {
      Write16Small(m, b, val);
    }
    PairIndexInRange(b);
    Write16OtherPair(m, addr, b, val, m');
    assert Read8Spec(m', addr) == Read8Spec(m, addr) by {
      ReadEven(m', addr);
      ReadEven(m, addr);
    }
    assert Read8Spec(m', addr + 1) == Read8Spec(m, addr + 1) by {
      ReadOdd(m', addr);
      ReadOdd(m, addr);
    }
  }

  lemma Write16OtherPair(m: Memory, addr: bv32, b: bv32, val: bv16, m': Memory)
    requires Sized(m) && Area(b) == Area(addr) && PairIndex(b) == PairIndex(addr) + 2 && PairIndex(b) + 1 < PALETTE_SIZE
    requires SmallBytes(m', b) == SmallBytes(m, b)[PairIndex(b) := Lo8(val)][PairIndex(b) + 1 := Hi8(val)]
    ensures Peek(SmallBytes(m', addr), PairIndex(addr)) == Peek(SmallBytes(m, addr), PairIndex(addr))
    ensures Peek(SmallBytes(m', addr), PairIndex(addr) + 1) == Peek(SmallBytes(m, addr), PairIndex(addr) + 1)
  {
    SameSmallBytes(m, addr, b);
    SameSmallBytes(m', addr, b);
    SetOtherCells(SmallBytes(m, b), PairIndex(addr), PairIndex(b), Lo8(val), Hi8(val), SmallBytes(m', b));
  }

  lemma SameSmallBytes(m: Memory, addr: bv32, b: bv32)
    requires Area(b) == Area(addr)
    ensures SmallBytes(m, addr) == SmallBytes(m, b)
  {
  }

  /** Setting cells `kb == k + 2` and `kb + 1` leaves cells `k` and `k + 1`. */
  lemma SetOtherCells(c: seq<bv8>, k: nat, kb: nat, lo: bv8, hi: bv8, c': seq<bv8>)
    requires kb == k + 2 && kb + 1 < |c| && c' == c[kb := lo][kb + 1 := hi]
    ensures Peek(c', k) == Peek(c, k) && Peek(c', k + 1) == Peek(c, k + 1)
  {
  }

  /** The halfword at `addr + 2` of a word address in a small area is the next pair of the same area. */
  lemma WordHalves(addr: bv32)
    requires addr & 3 == 0
    ensures Area(addr + 2) == Area(addr) && PairIndex(addr + 2) == PairIndex(addr) + 2
    ensures addr & 1 == 0 && (addr + 2) & 1 == 0
  {
    PlusTwo(addr);
    AreaSetBit1(addr);
    PairSetBit1(addr);
    UnsignedSetBit1(addr & 0x3fe);
    SecondHalfEven(addr);
  }

  lemma PlusTwo(addr: bv32)
    requires addr & 3 == 0
    ensures addr + 2 == addr | 2
  {
  }

  lemma AreaSetBit1(addr: bv32)
    ensures Area(addr | 2) == Area(addr)
  {
  }

  lemma PairSetBit1(addr: bv32)
    requires addr & 3 == 0
    ensures (addr | 2) & 0x3fe == (addr & 0x3fe) | 2 && (addr & 0x3fe) & 2 == 0
  {
  }

  lemma SecondHalfEven(addr: bv32)
    requires addr & 3 == 0
    ensures addr & 1 == 0 && (addr | 2) & 1 == 0
  {
  }

  lemma HalfwordsMakeWord(val: bv32, lo: bv16, hi: bv16)
    requires lo == Join8(Lo8(Lo16(val)), Hi8(Lo16(val))) && hi == Join8(Lo8(Hi16(val)), Hi8(Hi16(val)))
    ensures Join16(lo, hi) == val
  {
    Join8Split(Lo16(val));
    Join8Split(Hi16(val));
    Join16Split(val);
  }

  // ---------------------------------------------------------------------
  // Colours

  /** `ColorToRGB`: the five-bit channels of a BGR555 colour moved to the top of bytes 0, 1 and 2, byte 3 0xff. */
  function ColorToRGB(color: bv16): bv32 {
    var blue := ((color & 0x7c00) as bv32) >> 10;
    var green := ((color & 0x03e0) as bv32) >> 5;
    var red := (color as bv32) & 0x001f;
    0xff00_0000 | (red << 3) | (green << 11) | (blue << 19)
  }

  /** The five-bit channels of a colour: red in bits 4:0, green in 9:5, blue in 14:10. */
  function Red(color: bv16): bv8 { (color & 0x1f) as bv8 }
  function Green(color: bv16): bv8 { ((color >> 5) & 0x1f) as bv8 }
  function Blue(color: bv16): bv8 { ((color >> 10) & 0x1f) as bv8 }

  /** Each channel becomes the top five bits of its own byte; the top byte is opaque. */
  lemma ColorChannels(color: bv16)
    ensures ByteOf(ColorToRGB(color), 0) == Red(color) << 3
    ensures ByteOf(ColorToRGB(color), 1) == Green(color) << 3
    ensures ByteOf(ColorToRGB(color), 2) == Blue(color) << 3
    ensures ByteOf(ColorToRGB(color), 3) == 0xff
  {
    RedByte(color);
    GreenByte(color);
    BlueByte(color);
    AlphaByte(color);
  }

  lemma RedByte(color: bv16)
    ensures ByteOf(ColorToRGB(color), 0) == Red(color) << 3
  {
  }

  lemma GreenByte(color: bv16)
    ensures ByteOf(ColorToRGB(color), 1) == Green(color) << 3
  {
  }

  lemma BlueByte(color: bv16)
    ensures ByteOf(ColorToRGB(color), 2) == Blue(color) << 3
  {
  }

  lemma AlphaByte(color: bv16)
    ensures ByteOf(ColorToRGB(color), 3) == 0xff
  {
  }

  /** The colour back from a converted pixel: the top five bits of bytes 0, 1 and 2. */
  function RgbToColor(rgb: bv32): bv16 {
    var red := (ByteOf(rgb, 0) >> 3) as bv16;
    var green := (ByteOf(rgb, 1) >> 3) as bv16;
    var blue := (ByteOf(rgb, 2) >> 3) as bv16;
    red | (green << 5) | (blue << 10)
  }

  /** The conversion keeps all fifteen colour bits and drops only bit 15. */
  lemma ColorRoundTrip(color: bv16)
    ensures RgbToColor(ColorToRGB(color)) == color & 0x7fff
  {
    ColorChannels(color);
    ChannelsMakeColor(color);
  }

  lemma ChannelsMakeColor(color: bv16)
    ensures ((Red(color) << 3) >> 3) as bv16 | ((((Green(color) << 3) >> 3) as bv16) << 5) |
            ((((Blue(color) << 3) >> 3) as bv16) << 10) == color & 0x7fff
  {
  }

  /** Two colours convert to the same pixel exactly when they agree on bits 14:0. */
  lemma ColorToRGBInjective(c: bv16, d: bv16)
    ensures ColorToRGB(c) == ColorToRGB(d) <==> c & 0x7fff == d & 0x7fff
  {
    ColorRoundTrip(c);
    ColorRoundTrip(d);
    if c & 0x7fff == d & 0x7fff {
      SameChannels(c, d);
    }
  }

  lemma SameChannels(c: bv16, d: bv16)
    requires c & 0x7fff == d & 0x7fff
    ensures ColorToRGB(c) == ColorToRGB(d)
  {
  }

  // ---------------------------------------------------------------------
  // The dot clock

  const COLUMNS: nat := 308
  const ROWS: nat := 228
  const VISIBLE_COLUMNS: nat := 240
  const VISIBLE_ROWS: nat := 160
  const FRAME_CYCLES: nat := 280896
  /** Cycles a row takes: four per column. */
  const ROW_CYCLES: nat := 4 * COLUMNS

  /** `currentRow`, `currentCol` and `currentCycle`. */
  datatype Timing = Timing(row: nat, col: nat, cycle: nat)

  predicate ValidTiming(t: Timing) {
    t.row < ROWS && t.col < COLUMNS && t.cycle < FRAME_CYCLES
  }

  /**
   * What one `Cycle` leaves: the new clock, the new DISPSTAT, the row it
   * stores into VCOUNT (if any; the row is below 228, so the `ushort` cast
   * keeps it), the bits it raises with `SetInterruptFlag`,
   * whether it fires `OnFrameEvent` and whether it calls `DrawLine`.
   */
  datatype Tick = Tick(timing: Timing, dispstat: bv16, vcount: Option<nat>, irq: bv16, frame: bool, drawLine: bool)

  /** The VCOUNT compare value, DISPSTAT bits 15:8. */
  function Lyc(dispstat: bv16): nat { ((dispstat >> 8) as bv8) as nat }

  /** `Cycle` as written: the column step on every fourth cycle, then the cycle counter. */
  function CycleSpec(t: Timing, dispstat: bv16): Tick {
    Count(Advance(t, dispstat))
  }

  /** `currentCycle++`, back to 0 at 280896. */
  function Count(k: Tick): Tick {
    var c := k.timing.cycle + 1;
    k.(timing := k.timing.(cycle := if c == FRAME_CYCLES then 0 else c))
  }

  /** The column step, taken when `currentCycle & 3 == 3`. */
  function Advance(t: Timing, dispstat: bv16): Tick {
    if t.cycle % 4 != 3 then Tick(t, dispstat, None, 0, false, false)
    else if t.col + 1 == COLUMNS then EndOfRow(t, dispstat)
    else if t.col + 1 == VISIBLE_COLUMNS then
      Tick(t.(col := t.col + 1), HBlankStatus(dispstat), None, HBlankIrq(dispstat), false, t.row < VISIBLE_ROWS)
    else Tick(t.(col := t.col + 1), dispstat, None, 0, false, false)
  }

  /** Column 240 sets HBlank. */
  function HBlankStatus(dispstat: bv16): bv16 {
    BitSet16(dispstat, 1)
  }

  /** Column 240 raises the HBlank interrupt when bit 4 of the updated DISPSTAT enables it. */
  function HBlankIrq(dispstat: bv16): bv16 {
    if BitTest16(HBlankStatus(dispstat), 4) then 2 else 0
  }

  /**
   * Column 308 as written: the next row, HBlank cleared, the VCOUNT compare
   * against the incremented row, then the frame wrap (row and cycle to 0,
   * VBlank cleared) or the VBlank start at row 160.
   */
  function EndOfRow(t: Timing, dispstat: bv16): Tick {
    var row := t.row + 1;
    var hit := RowMatch(dispstat, row);
    if row == ROWS then
      Tick(Timing(0, 0, 0), WrapStatus(dispstat, hit), Some(0), RowIrq(dispstat, hit), false, false)
    else if row == VISIBLE_ROWS then
      Tick(Timing(row, 0, t.cycle), VBlankStatus(dispstat, hit), Some(row), VBlankIrq(dispstat, hit), true, false)
    else
      Tick(Timing(row, 0, t.cycle), RowStatus(dispstat, hit), Some(row), RowIrq(dispstat, hit), false, false)
  }

  /** The VCOUNT compare of a row end, made once HBlank is cleared: LYC equals the row entered. */
  predicate RowMatch(dispstat: bv16, row: nat) {
    Lyc(BitClear16(dispstat, 1)) == row
  }

  /** DISPSTAT at the end of a row before the VBlank bit: HBlank cleared, the VCOUNT flag set iff the compare matched. */
  function RowStatus(dispstat: bv16, hit: bool): bv16 {
    var ds1 := BitClear16(dispstat, 1);
    if hit then BitSet16(ds1, 2) else BitClear16(ds1, 2)
  }

  /** The VCOUNT interrupt of a row end: on a match, when bit 5 of the updated DISPSTAT enables it. */
  function LycIrq(ds2: bv16, hit: bool): bv16 {
    if hit && BitTest16(ds2, 5) then 4 else 0
  }

  function RowIrq(dispstat: bv16, hit: bool): bv16 {
    LycIrq(RowStatus(dispstat, hit), hit)
  }

  /** The frame wrap clears VBlank. */
  function WrapStatus(dispstat: bv16, hit: bool): bv16 {
    BitClear16(RowStatus(dispstat, hit), 0)
  }

  /** Row 160 sets VBlank. */
  function VBlankStatus(dispstat: bv16, hit: bool): bv16 {
    BitSet16(RowStatus(dispstat, hit), 0)
  }

  /** Row 160 adds the VBlank interrupt when bit 3 of the updated DISPSTAT enables it. */
  function VBlankIrq(dispstat: bv16, hit: bool): bv16 {
    RowIrq(dispstat, hit) | (if BitTest16(VBlankStatus(dispstat, hit), 3) then 1 else 0)
  }

  /** The counter after `currentCycle++`. */
  function NextCycle(c: nat): nat { if c + 1 == FRAME_CYCLES then 0 else c + 1 }

  /** The call moves the column to `c`. */
  predicate Enters(t: Timing, c: nat) { t.cycle % 4 == 3 && t.col + 1 == c }

  /** The call ends a row. */
  predicate NewRow(t: Timing) { Enters(t, COLUMNS) }

  /** At the end of a row, LYC equals the incremented row. */
  predicate Hit(t: Timing, dispstat: bv16) { Lyc(dispstat) == t.row + 1 }

  // What `Cycle` does in each of its six cases.

  lemma IdleStep(t: Timing, dispstat: bv16)
    requires t.cycle % 4 != 3
    ensures CycleSpec(t, dispstat) == Tick(t.(cycle := NextCycle(t.cycle)), dispstat, None, 0, false, false)
  {
  }

  lemma ColumnStep(t: Timing, dispstat: bv16)
    requires t.cycle % 4 == 3 && t.col + 1 != COLUMNS && t.col + 1 != VISIBLE_COLUMNS
    ensures CycleSpec(t, dispstat) == Tick(Timing(t.row, t.col + 1, NextCycle(t.cycle)), dispstat, None, 0, false, false)
  {
  }

  lemma HBlankStep(t: Timing, dispstat: bv16)
    requires Enters(t, VISIBLE_COLUMNS)
    ensures CycleSpec(t, dispstat) ==
            Tick(Timing(t.row, VISIBLE_COLUMNS, NextCycle(t.cycle)), HBlankStatus(dispstat), None,
                 HBlankIrq(dispstat), false, t.row < VISIBLE_ROWS)
  {
  }

  lemma RowStep(t: Timing, dispstat: bv16)
    requires NewRow(t) && t.row + 1 != ROWS && t.row + 1 != VISIBLE_ROWS
    ensures var hit := RowMatch(dispstat, t.row + 1);
            CycleSpec(t, dispstat) ==
            Tick(Timing(t.row + 1, 0, NextCycle(t.cycle)), RowStatus(dispstat, hit), Some(t.row + 1),
                 RowIrq(dispstat, hit), false, false)
  {
  }

  lemma VBlankStep(t: Timing, dispstat: bv16)
    requires NewRow(t) && t.row + 1 == VISIBLE_ROWS
    ensures var hit := RowMatch(dispstat, VISIBLE_ROWS);
            CycleSpec(t, dispstat) ==
            Tick(Timing(VISIBLE_ROWS, 0, NextCycle(t.cycle)), VBlankStatus(dispstat, hit), Some(VISIBLE_ROWS),
                 VBlankIrq(dispstat, hit), true, false)
  {
  }

  /** The frame wrap: row, column and counter to 0, and then the counter steps to 1. */
  lemma FrameWrapStep(t: Timing, dispstat: bv16)
    requires NewRow(t) && t.row + 1 == ROWS
    ensures var hit := RowMatch(dispstat, ROWS);
            CycleSpec(t, dispstat) ==
            Tick(Timing(0, 0, 1), WrapStatus(dispstat, hit), Some(0), RowIrq(dispstat, hit), false, false)
  {
  }

  /** The compare of a row end is LYC against the incremented row: clearing HBlank leaves LYC. */
  lemma RowMatchIsHit(t: Timing, dispstat: bv16)
    ensures RowMatch(dispstat, t.row + 1) == Hit(t, dispstat)
  {
    ClearKeepsLyc(dispstat);
  }

  lemma ClearKeepsLyc(v: bv16)
    ensures Lyc(BitClear16(v, 1)) == Lyc(v)
  {
    ClearKeepsHighByte(v);
  }

  lemma ClearKeepsHighByte(v: bv16)
    ensures (BitClear16(v, 1) >> 8) as bv8 == (v >> 8) as bv8
  {
  }

  // The DISPSTAT bits each update leaves: bit 0 VBlank, 1 HBlank, 2 the
  // VCOUNT flag, 3 to 5 the interrupt enables, 15:8 LYC.

  lemma HBlankStatusHBlank(dispstat: bv16)
    ensures BitTest16(HBlankStatus(dispstat), 1)
  {
  }

  lemma HBlankStatusVBlank(dispstat: bv16)
    ensures BitTest16(HBlankStatus(dispstat), 0) == BitTest16(dispstat, 0)
  {
  }

  lemma HBlankStatusVCount(dispstat: bv16)
    ensures BitTest16(HBlankStatus(dispstat), 2) == BitTest16(dispstat, 2)
  {
  }

  lemma HBlankStatusOtherBits(dispstat: bv16)
    ensures HBlankStatus(dispstat) & 0xfff8 == dispstat & 0xfff8
  {
  }

  lemma HBlankStatusEnable(dispstat: bv16)
    ensures BitTest16(HBlankStatus(dispstat), 4) == BitTest16(dispstat, 4)
  {
  }

  /** The HBlank interrupt is raised when DISPSTAT enables it. */
  lemma HBlankIrqEnabled(dispstat: bv16)
    ensures HBlankIrq(dispstat) == if BitTest16(dispstat, 4) then 2 else 0
  {
    HBlankStatusEnable(dispstat);
  }

  lemma RowStatusHBlank(dispstat: bv16, hit: bool)
    ensures !BitTest16(RowStatus(dispstat, hit), 1)
  {
  }

  lemma RowStatusVBlank(dispstat: bv16, hit: bool)
    ensures BitTest16(RowStatus(dispstat, hit), 0) == BitTest16(dispstat, 0)
  {
  }

  lemma RowStatusVCount(dispstat: bv16, hit: bool)
    ensures BitTest16(RowStatus(dispstat, hit), 2) == hit
  {
  }

  lemma RowStatusOtherBits(x: bv16, dispstat: bv16, hit: bool)
    requires x == RowStatus(dispstat, hit)
    ensures x & 0xfff8 == dispstat & 0xfff8
  {
  }

  lemma RowStatusEnable(dispstat: bv16, hit: bool)
    ensures BitTest16(RowStatus(dispstat, hit), 5) == BitTest16(dispstat, 5)
  {
  }

  /** The VCOUNT interrupt is raised on a match when DISPSTAT enables it. */
  lemma RowIrqEnabled(dispstat: bv16, hit: bool)
    ensures RowIrq(dispstat, hit) == if hit && BitTest16(dispstat, 5) then 4 else 0
  {
    RowStatusEnable(dispstat, hit);
  }

  lemma WrapStatusVBlank(dispstat: bv16, hit: bool)
    ensures !BitTest16(WrapStatus(dispstat, hit), 0)
  {
  }

  lemma WrapStatusHBlank(dispstat: bv16, hit: bool)
    ensures !BitTest16(WrapStatus(dispstat, hit), 1)
  {
  }

  lemma WrapStatusVCount(dispstat: bv16, hit: bool)
    ensures BitTest16(WrapStatus(dispstat, hit), 2) == hit
  {
  }

  lemma WrapStatusOtherBits(dispstat: bv16, hit: bool)
    ensures WrapStatus(dispstat, hit) & 0xfff8 == dispstat & 0xfff8
  {
  }

  lemma VBlankStatusVBlank(dispstat: bv16, hit: bool)
    ensures BitTest16(VBlankStatus(dispstat, hit), 0)
  {
  }

  lemma VBlankStatusHBlank(dispstat: bv16, hit: bool)
    ensures !BitTest16(VBlankStatus(dispstat, hit), 1)
  {
  }

  lemma VBlankStatusVCount(dispstat: bv16, hit: bool)
    ensures BitTest16(VBlankStatus(dispstat, hit), 2) == hit
  {
  }

  lemma VBlankStatusOtherBits(dispstat: bv16, hit: bool)
    ensures VBlankStatus(dispstat, hit) & 0xfff8 == dispstat & 0xfff8
  {
  }

  lemma VBlankStatusEnable(dispstat: bv16, hit: bool)
    ensures BitTest16(VBlankStatus(dispstat, hit), 3) == BitTest16(dispstat, 3)
  {
  }

  /** Row 160 raises the VBlank interrupt when DISPSTAT enables it, besides the VCOUNT one. */
  lemma VBlankIrqEnabled(dispstat: bv16, hit: bool)
    ensures VBlankIrq(dispstat, hit) == (if BitTest16(dispstat, 3) then 1 else 0) | (if hit && BitTest16(dispstat, 5) then 4 else 0)
  {
    RowIrqEnabled(dispstat, hit);
    VBlankStatusEnable(dispstat, hit);
  }

  /** A column advances exactly on the fourth cycle of each group, and wraps after 307. */
  lemma ColumnAdvance(t: Timing, dispstat: bv16)
    requires ValidTiming(t)
    ensures CycleSpec(t, dispstat).timing.col == if t.cycle % 4 == 3 then (t.col + 1) % COLUMNS else t.col
  {
  }

  /** The row advances exactly at the end of a row, and wraps after 227. */
  lemma RowAdvance(t: Timing, dispstat: bv16)
    requires ValidTiming(t)
    ensures CycleSpec(t, dispstat).timing.row == if NewRow(t) then (t.row + 1) % ROWS else t.row
  {
  }

  /** The clock stays within its frame. */
  lemma CycleKeepsTiming(t: Timing, dispstat: bv16)
    requires ValidTiming(t)
    ensures ValidTiming(CycleSpec(t, dispstat).timing)
  {
  }

  /** HBlank (DISPSTAT bit 1) is set on entering column 240 and cleared at the end of the row. */
  lemma HBlankFlag(t: Timing, dispstat: bv16)
    requires ValidTiming(t)
    ensures BitTest16(CycleSpec(t, dispstat).dispstat, 1) ==
            if Enters(t, VISIBLE_COLUMNS) then true
            else if NewRow(t) then false
            else BitTest16(dispstat, 1)
  {
    if NewRow(t) {
      HBlankFlagAtRowEnd(t, dispstat);
    } else {
      HBlankFlagInRow(t, dispstat);
    }
  }

  lemma HBlankFlagAtRowEnd(t: Timing, dispstat: bv16)
    requires NewRow(t)
    ensures !BitTest16(CycleSpec(t, dispstat).dispstat, 1)
  {
    if t.row + 1 == ROWS {
      FrameWrapStep(t, dispstat);
      WrapStatusHBlank(dispstat, RowMatch(dispstat, ROWS));
    } else if t.row + 1 == VISIBLE_ROWS {
      VBlankStep(t, dispstat);
      VBlankStatusHBlank(dispstat, RowMatch(dispstat, VISIBLE_ROWS));
    } else {
      RowStep(t, dispstat);
      RowStatusHBlank(dispstat, RowMatch(dispstat, t.row + 1));
    }
  }

  lemma HBlankFlagInRow(t: Timing, dispstat: bv16)
    requires !NewRow(t)
    ensures BitTest16(CycleSpec(t, dispstat).dispstat, 1) ==
            if Enters(t, VISIBLE_COLUMNS) then true else BitTest16(dispstat, 1)
  {
    if t.cycle % 4 != 3 {
      IdleStep(t, dispstat);
    } else if t.col + 1 == VISIBLE_COLUMNS {
      HBlankStep(t, dispstat);
      HBlankStatusHBlank(dispstat);
    } else {
      ColumnStep(t, dispstat);
    }
  }

  /** VCOUNT is stored at each row end, with the new row. */
  lemma VCountStore(t: Timing, dispstat: bv16)
    requires ValidTiming(t)
    ensures CycleSpec(t, dispstat).vcount == if NewRow(t) then Some((t.row + 1) % ROWS) else None
  {
  }

  /** A frame is signalled exactly on entering row 160, and a line drawn exactly on entering column 240 of a visible row. */
  lemma FrameAndLine(t: Timing, dispstat: bv16)
    requires ValidTiming(t)
    ensures CycleSpec(t, dispstat).frame <==> NewRow(t) && t.row + 1 == VISIBLE_ROWS
    ensures CycleSpec(t, dispstat).drawLine <==> Enters(t, VISIBLE_COLUMNS) && t.row < VISIBLE_ROWS
  {
    FrameSignal(t, dispstat);
    LineDrawn(t, dispstat);
  }

  lemma FrameSignal(t: Timing, dispstat: bv16)
    ensures CycleSpec(t, dispstat).frame <==> NewRow(t) && t.row + 1 == VISIBLE_ROWS
  {
  }

  lemma LineDrawn(t: Timing, dispstat: bv16)
    ensures CycleSpec(t, dispstat).drawLine <==> Enters(t, VISIBLE_COLUMNS) && t.row < VISIBLE_ROWS
  {
  }

  /** VBlank (DISPSTAT bit 0) is set on entering row 160 and cleared when the frame wraps. */
  lemma VBlankFlag(t: Timing, dispstat: bv16)
    requires ValidTiming(t)
    ensures BitTest16(CycleSpec(t, dispstat).dispstat, 0) ==
            if NewRow(t) && t.row + 1 == VISIBLE_ROWS then true
            else if NewRow(t) && t.row + 1 == ROWS then false
            else BitTest16(dispstat, 0)
  {
    if NewRow(t) {
      VBlankFlagAtRowEnd(t, dispstat);
    } else {
      VBlankFlagInRow(t, dispstat);
    }
  }

  lemma VBlankFlagAtRowEnd(t: Timing, dispstat: bv16)
    requires NewRow(t)
    ensures BitTest16(CycleSpec(t, dispstat).dispstat, 0) ==
            if t.row + 1 == VISIBLE_ROWS then true
            else if t.row + 1 == ROWS then false
            else BitTest16(dispstat, 0)
  {
    if t.row + 1 == ROWS {
      FrameWrapStep(t, dispstat);
      WrapStatusVBlank(dispstat, RowMatch(dispstat, ROWS));
    } else if t.row + 1 == VISIBLE_ROWS {
      VBlankStep(t, dispstat);
      VBlankStatusVBlank(dispstat, RowMatch(dispstat, VISIBLE_ROWS));
    } else {
      RowStep(t, dispstat);
      RowStatusVBlank(dispstat, RowMatch(dispstat, t.row + 1));
    }
  }

  lemma VBlankFlagInRow(t: Timing, dispstat: bv16)
    requires !NewRow(t)
    ensures BitTest16(CycleSpec(t, dispstat).dispstat, 0) == BitTest16(dispstat, 0)
  {
    if t.cycle % 4 != 3 {
      IdleStep(t, dispstat);
    } else if t.col + 1 == VISIBLE_COLUMNS {
      HBlankStep(t, dispstat);
      HBlankStatusVBlank(dispstat);
    } else {
      ColumnStep(t, dispstat);
    }
  }

  /** The VCOUNT flag (DISPSTAT bit 2) is recomputed at each row end, set exactly when LYC equals the incremented row. */
  lemma VCountFlag(t: Timing, dispstat: bv16)
    requires ValidTiming(t)
    ensures BitTest16(CycleSpec(t, dispstat).dispstat, 2) ==
            if NewRow(t) then Hit(t, dispstat) else BitTest16(dispstat, 2)
  {
    if NewRow(t) {
      VCountFlagAtRowEnd(t, dispstat);
    } else {
      VCountFlagInRow(t, dispstat);
    }
  }

  lemma VCountFlagAtRowEnd(t: Timing, dispstat: bv16)
    requires NewRow(t)
    ensures BitTest16(CycleSpec(t, dispstat).dispstat, 2) == Hit(t, dispstat)
  {
    if t.row + 1 == ROWS {
      VCountFlagAtRowEndWrap(t, dispstat);
    } else if t.row + 1 == VISIBLE_ROWS {
      VCountFlagAtRowEndVBlank(t, dispstat);
    } else {
      VCountFlagAtRowEndRow(t, dispstat);
    }
  }

  lemma VCountFlagAtRowEndWrap(t: Timing, dispstat: bv16)
    requires NewRow(t) && t.row + 1 == ROWS
    ensures BitTest16(CycleSpec(t, dispstat).dispstat, 2) == Hit(t, dispstat)
  {
    RowMatchIsHit(t, dispstat);
    FrameWrapStep(t, dispstat);
    WrapStatusVCount(dispstat, RowMatch(dispstat, ROWS));
  }

  lemma VCountFlagAtRowEndVBlank(t: Timing, dispstat: bv16)
    requires NewRow(t) && t.row + 1 == VISIBLE_ROWS
    ensures BitTest16(CycleSpec(t, dispstat).dispstat, 2) == Hit(t, dispstat)
  {
    RowMatchIsHit(t, dispstat);
    VBlankStep(t, dispstat);
    VBlankStatusVCount(dispstat, RowMatch(dispstat, VISIBLE_ROWS));
  }

  lemma VCountFlagAtRowEndRow(t: Timing, dispstat: bv16)
    requires NewRow(t) && t.row + 1 != ROWS && t.row + 1 != VISIBLE_ROWS
    ensures BitTest16(CycleSpec(t, dispstat).dispstat, 2) == Hit(t, dispstat)
  {
    RowMatchIsHit(t, dispstat);
    RowStep(t, dispstat);
    RowStatusVCount(dispstat, RowMatch(dispstat, t.row + 1));
  }

  lemma VCountFlagInRow(t: Timing, dispstat: bv16)
    requires !NewRow(t)
    ensures BitTest16(CycleSpec(t, dispstat).dispstat, 2) == BitTest16(dispstat, 2)
  {
    if t.cycle % 4 != 3 {
      IdleStep(t, dispstat);
    } else if t.col + 1 == VISIBLE_COLUMNS {
      HBlankStep(t, dispstat);
      HBlankStatusVCount(dispstat);
    } else {
      ColumnStep(t, dispstat);
    }
  }

  /** No other DISPSTAT bit changes. */
  lemma DispstatOtherBits(t: Timing, dispstat: bv16)
    requires ValidTiming(t)
    ensures CycleSpec(t, dispstat).dispstat & 0xfff8 == dispstat & 0xfff8
  {
    if NewRow(t) {
      OtherBitsAtRowEnd(t, dispstat);
    } else {
      OtherBitsInRow(t, dispstat);
    }
  }

  lemma OtherBitsAtRowEnd(t: Timing, dispstat: bv16)
    requires NewRow(t)
    ensures CycleSpec(t, dispstat).dispstat & 0xfff8 == dispstat & 0xfff8
  {
    if t.row + 1 == ROWS {
      OtherBitsAtRowEndWrap(t, dispstat);
    } else if t.row + 1 == VISIBLE_ROWS {
      OtherBitsAtRowEndVBlank(t, dispstat);
    } else {
      OtherBitsAtRowEndRow(t, dispstat);
    }
  }

  lemma OtherBitsAtRowEndWrap(t: Timing, dispstat: bv16)
    requires NewRow(t) && t.row + 1 == ROWS
    ensures CycleSpec(t, dispstat).dispstat & 0xfff8 == dispstat & 0xfff8
  {
    WrapStatusOtherBits(dispstat, RowMatch(dispstat, ROWS));
  }

  lemma OtherBitsAtRowEndVBlank(t: Timing, dispstat: bv16)
    requires NewRow(t) && t.row + 1 == VISIBLE_ROWS
    ensures CycleSpec(t, dispstat).dispstat & 0xfff8 == dispstat & 0xfff8
  {
    VBlankStep(t, dispstat);
    VBlankStatusOtherBits(dispstat, RowMatch(dispstat, VISIBLE_ROWS));
  }

  lemma OtherBitsAtRowEndRow(t: Timing, dispstat: bv16)
    requires NewRow(t) && t.row + 1 != ROWS && t.row + 1 != VISIBLE_ROWS
    ensures CycleSpec(t, dispstat).dispstat & 0xfff8 == dispstat & 0xfff8
  {
    var k := CycleSpec(t, dispstat);
    RowStepStatus(t, dispstat);
    RowStatusOtherBits(k.dispstat, dispstat, RowMatch(dispstat, t.row + 1));
  }

  lemma RowStepStatus(t: Timing, dispstat: bv16)
    requires NewRow(t) && t.row + 1 != ROWS && t.row + 1 != VISIBLE_ROWS
    ensures CycleSpec(t, dispstat).dispstat == RowStatus(dispstat, RowMatch(dispstat, t.row + 1))
  {
  }

  lemma OtherBitsInRow(t: Timing, dispstat: bv16)
    requires !NewRow(t)
    ensures CycleSpec(t, dispstat).dispstat & 0xfff8 == dispstat & 0xfff8
  {
    if t.cycle % 4 != 3 {
      IdleStep(t, dispstat);
    } else if t.col + 1 == VISIBLE_COLUMNS {
      HBlankStep(t, dispstat);
      HBlankStatusOtherBits(dispstat);
    } else {
      ColumnStep(t, dispstat);
    }
  }

  /** The interrupt bits handed to `SetInterruptFlag`: bit 0 VBlank, bit 1 HBlank, bit 2 VCOUNT. */
  function RaisedBits(vblank: bool, hblank: bool, vcount: bool): bv16 {
    (if vblank then 1 else 0) | (if hblank then 2 else 0) | (if vcount then 4 else 0)
  }

  /**
   * The interrupts raised: VBlank on entering row 160, HBlank on entering
   * column 240, VCOUNT on an LYC match at a row end, each when its enable
   * bit (3, 4, 5) is set.
   */
  lemma RaisedInterrupts(t: Timing, dispstat: bv16)
    requires ValidTiming(t)
    ensures CycleSpec(t, dispstat).irq ==
            RaisedBits(NewRow(t) && t.row + 1 == VISIBLE_ROWS && BitTest16(dispstat, 3),
                       Enters(t, VISIBLE_COLUMNS) && BitTest16(dispstat, 4),
                       NewRow(t) && Hit(t, dispstat) && BitTest16(dispstat, 5))
  {
    if NewRow(t) {
      RaisedAtRowEnd(t, dispstat);
    } else {
      RaisedInRow(t, dispstat);
    }
  }

  lemma RaisedAtRowEnd(t: Timing, dispstat: bv16)
    requires NewRow(t)
    ensures CycleSpec(t, dispstat).irq ==
            RaisedBits(t.row + 1 == VISIBLE_ROWS && BitTest16(dispstat, 3), false, Hit(t, dispstat) && BitTest16(dispstat, 5))
  {
    if t.row + 1 == ROWS {
      RaisedAtRowEndWrap(t, dispstat);
    } else if t.row + 1 == VISIBLE_ROWS {
      RaisedAtRowEndVBlank(t, dispstat);
    } else {
      RaisedAtRowEndRow(t, dispstat);
    }
  }

  lemma RaisedAtRowEndWrap(t: Timing, dispstat: bv16)
    requires NewRow(t) && t.row + 1 == ROWS
    ensures CycleSpec(t, dispstat).irq ==
            RaisedBits(t.row + 1 == VISIBLE_ROWS && BitTest16(dispstat, 3), false, Hit(t, dispstat) && BitTest16(dispstat, 5))
  {
    RowMatchIsHit(t, dispstat);
    FrameWrapStep(t, dispstat);
    RowIrqEnabled(dispstat, RowMatch(dispstat, ROWS));
    OnlyVCount(Hit(t, dispstat) && BitTest16(dispstat, 5));
  }

  lemma RaisedAtRowEndVBlank(t: Timing, dispstat: bv16)
    requires NewRow(t) && t.row + 1 == VISIBLE_ROWS
    ensures CycleSpec(t, dispstat).irq ==
            RaisedBits(t.row + 1 == VISIBLE_ROWS && BitTest16(dispstat, 3), false, Hit(t, dispstat) && BitTest16(dispstat, 5))
  {
    RowMatchIsHit(t, dispstat);
    VBlankStep(t, dispstat);
    VBlankIrqEnabled(dispstat, RowMatch(dispstat, VISIBLE_ROWS));
    VBlankAndVCount(BitTest16(dispstat, 3), Hit(t, dispstat) && BitTest16(dispstat, 5));
  }

  lemma RaisedAtRowEndRow(t: Timing, dispstat: bv16)
    requires NewRow(t) && t.row + 1 != ROWS && t.row + 1 != VISIBLE_ROWS
    ensures CycleSpec(t, dispstat).irq ==
            RaisedBits(t.row + 1 == VISIBLE_ROWS && BitTest16(dispstat, 3), false, Hit(t, dispstat) && BitTest16(dispstat, 5))
  {
    RowMatchIsHit(t, dispstat);
    RowStep(t, dispstat);
    RowIrqEnabled(dispstat, RowMatch(dispstat, t.row + 1));
    OnlyVCount(Hit(t, dispstat) && BitTest16(dispstat, 5));
  }

  lemma RaisedInRow(t: Timing, dispstat: bv16)
    requires !NewRow(t)
    ensures CycleSpec(t, dispstat).irq == RaisedBits(false, Enters(t, VISIBLE_COLUMNS) && BitTest16(dispstat, 4), false)
  {
    if t.cycle % 4 != 3 {
      IdleStep(t, dispstat);
      OnlyHBlank(false);
    } else if t.col + 1 == VISIBLE_COLUMNS {
      HBlankStep(t, dispstat);
      HBlankIrqEnabled(dispstat);
      OnlyHBlank(BitTest16(dispstat, 4));
    } else {
      ColumnStep(t, dispstat);
      OnlyHBlank(false);
    }
  }

  lemma OnlyHBlank(hblank: bool)
    ensures RaisedBits(false, hblank, false) == if hblank then 2 else 0
  {
  }

  lemma OnlyVCount(vcount: bool)
    ensures RaisedBits(false, false, vcount) == if vcount then 4 else 0
  {
  }

  lemma VBlankAndVCount(vblank: bool, vcount: bool)
    ensures RaisedBits(vblank, false, vcount) == (if vblank then 1 else 0) | (if vcount then 4 else 0)
  {
  }

  // ---------------------------------------------------------------------
  // Frame length

  /** The clock's position agrees with its counter: four cycles a column, 1232 a row. */
  predicate Aligned(t: Timing) {
    t.cycle == t.row * ROW_CYCLES + t.col * 4 + t.cycle % 4
  }

  /** The last cycle of a frame is the last cycle of column 307 of row 227, and no other position. */
  lemma LastCycle(t: Timing)
    requires ValidTiming(t) && Aligned(t)
    ensures t.cycle == FRAME_CYCLES - 1 <==> NewRow(t) && t.row + 1 == ROWS
  {
  }

  /**
   * As written, every call keeps the clock aligned and steps the counter,
   * except that the frame wrap restarts it at 1: from the second frame on
   * the counter runs 1 .. 280895, so a frame lasts 280895 calls and the
   * wrap at 280896 is never reached.
   */
  lemma CycleKeepsAligned(t: Timing, dispstat: bv16)
    requires ValidTiming(t) && Aligned(t)
    ensures Aligned(CycleSpec(t, dispstat).timing)
    ensures CycleSpec(t, dispstat).timing.cycle == if t.cycle == FRAME_CYCLES - 1 then 1 else t.cycle + 1
  {
    LastCycle(t);
    if NewRow(t) {
      AlignedAtRowEnd(t, dispstat);
    } else {
      AlignedInRow(t, dispstat);
    }
  }

  lemma AlignedAtRowEnd(t: Timing, dispstat: bv16)
    requires ValidTiming(t) && Aligned(t) && NewRow(t)
    ensures Aligned(CycleSpec(t, dispstat).timing)
    ensures CycleSpec(t, dispstat).timing.cycle == if t.row + 1 == ROWS then 1 else t.cycle + 1
  {
    if t.row + 1 == ROWS {
      AlignedAtWrap(t, dispstat);
    } else if t.row + 1 == VISIBLE_ROWS {
      AlignedAtVBlank(t, dispstat);
    } else {
      AlignedAtNextRow(t, dispstat);
    }
  }

  lemma AlignedAtWrap(t: Timing, dispstat: bv16)
    requires ValidTiming(t) && Aligned(t) && NewRow(t) && t.row + 1 == ROWS
    ensures Aligned(CycleSpec(t, dispstat).timing) && CycleSpec(t, dispstat).timing.cycle == 1
  {
    FrameWrapStep(t, dispstat);
  }

  lemma AlignedAtVBlank(t: Timing, dispstat: bv16)
    requires ValidTiming(t) && Aligned(t) && NewRow(t) && t.row + 1 == VISIBLE_ROWS
    ensures Aligned(CycleSpec(t, dispstat).timing) && CycleSpec(t, dispstat).timing.cycle == t.cycle + 1
  {
    VBlankStep(t, dispstat);
  }

  lemma AlignedAtNextRow(t: Timing, dispstat: bv16)
    requires ValidTiming(t) && Aligned(t) && NewRow(t) && t.row + 1 != ROWS && t.row + 1 != VISIBLE_ROWS
    ensures Aligned(CycleSpec(t, dispstat).timing) && CycleSpec(t, dispstat).timing.cycle == t.cycle + 1
  {
    RowStep(t, dispstat);
  }

  lemma AlignedInRow(t: Timing, dispstat: bv16)
    requires ValidTiming(t) && Aligned(t) && !NewRow(t) && t.cycle + 1 < FRAME_CYCLES
    ensures Aligned(CycleSpec(t, dispstat).timing) && CycleSpec(t, dispstat).timing.cycle == t.cycle + 1
  {
    if t.cycle % 4 != 3 {
      IdleStep(t, dispstat);
    } else if t.col + 1 == VISIBLE_COLUMNS {
      HBlankStep(t, dispstat);
    } else {
      ColumnStep(t, dispstat);
    }
  }

  /** The frame wrap as written: the first column of the new frame starts at cycle 1, so it lasts three calls. */
  lemma FrameWrapAsWrittenCounterexample(dispstat: bv16)
    ensures CycleSpec(Timing(227, 307, 280895), dispstat).timing == Timing(0, 0, 1)
    ensures CycleSpec(CycleSpec(CycleSpec(Timing(0, 0, 1), dispstat).timing, dispstat).timing, dispstat).timing == Timing(0, 1, 4)
  {
    FrameWrapStep(Timing(227, 307, 280895), dispstat);
    IdleStep(Timing(0, 0, 1), dispstat);
    IdleStep(Timing(0, 0, 2), dispstat);
    ColumnStep(Timing(0, 0, 3), dispstat);
  }

  /** The VCOUNT compare as written: with LYC 0 and its interrupt enabled, the wrap to row 0 neither flags nor interrupts. */
  lemma LycAsWrittenCounterexample()
    ensures var k := CycleSpec(Timing(227, 307, 280895), 0x0020);
            k.vcount == Some(0) && !BitTest16(k.dispstat, 2) && k.irq == 0
  {
    FrameWrapStep(Timing(227, 307, 280895), 0x0020);
    ClearKeepsLyc(0x0020);
    assert !RowMatch(0x0020, ROWS);
    WrapStatusVCount(0x0020, false);
    RowIrqEnabled(0x0020, false);
  }

  // `Cycle` as intended: the row compare against the wrapped row, the
  // VCOUNT value, and the counter left to its own wrap at 280896.

  function CorrectedCycle(t: Timing, dispstat: bv16): Tick {
    Count(CorrectedAdvance(t, dispstat))
  }

  function CorrectedAdvance(t: Timing, dispstat: bv16): Tick {
    if t.cycle % 4 != 3 then Tick(t, dispstat, None, 0, false, false)
    else if t.col + 1 == COLUMNS then CorrectedEndOfRow(t, dispstat)
    else if t.col + 1 == VISIBLE_COLUMNS then
      Tick(t.(col := t.col + 1), HBlankStatus(dispstat), None, HBlankIrq(dispstat), false, t.row < VISIBLE_ROWS)
    else Tick(t.(col := t.col + 1), dispstat, None, 0, false, false)
  }

  function CorrectedEndOfRow(t: Timing, dispstat: bv16): Tick {
    if t.row + 1 == ROWS then CorrectedFrameWrap(t, dispstat) else EndOfRow(t, dispstat)
  }

  /** The frame wrap as intended: the compare against row 0, and the counter left as it is. */
  function CorrectedFrameWrap(t: Timing, dispstat: bv16): Tick {
    var hit := RowMatch(dispstat, 0);
    Tick(Timing(0, 0, t.cycle), WrapStatus(dispstat, hit), Some(0), RowIrq(dispstat, hit), false, false)
  }

  /** The intended frame wrap: the compare against row 0, and the counter steps to 1 like any other. */
  lemma CorrectedFrameWrapStep(t: Timing, dispstat: bv16)
    requires NewRow(t) && t.row + 1 == ROWS
    ensures var hit := RowMatch(dispstat, 0);
            CorrectedCycle(t, dispstat) ==
            Tick(Timing(0, 0, NextCycle(t.cycle)), WrapStatus(dispstat, hit), Some(0), RowIrq(dispstat, hit), false, false)
  {
  }

  /** Away from the frame wrap the intended `Cycle` is the one written. */
  lemma CorrectedCycleElsewhere(t: Timing, dispstat: bv16)
    requires !(NewRow(t) && t.row + 1 == ROWS)
    ensures CorrectedCycle(t, dispstat) == CycleSpec(t, dispstat)
  {
    if NewRow(t) {
      CorrectedRowEnd(t, dispstat);
    } else {
      CorrectedInRow(t, dispstat);
    }
  }

  lemma CorrectedRowEnd(t: Timing, dispstat: bv16)
    requires NewRow(t) && t.row + 1 != ROWS
    ensures CorrectedAdvance(t, dispstat) == Advance(t, dispstat)
  {
  }

  lemma CorrectedInRow(t: Timing, dispstat: bv16)
    requires !NewRow(t)
    ensures CorrectedAdvance(t, dispstat) == Advance(t, dispstat)
  {
  }

  /** With the intended `Cycle` the counter steps modulo 280896 and the clock stays aligned: every frame lasts 280896 calls. */
  lemma CorrectedCycleKeepsAligned(t: Timing, dispstat: bv16)
    requires ValidTiming(t) && Aligned(t)
    ensures ValidTiming(CorrectedCycle(t, dispstat).timing) && Aligned(CorrectedCycle(t, dispstat).timing)
    ensures CorrectedCycle(t, dispstat).timing.cycle == (t.cycle + 1) % FRAME_CYCLES
  {
    LastCycle(t);
    if NewRow(t) && t.row + 1 == ROWS {
      CorrectedFrameWrapStep(t, dispstat);
    } else {
      CorrectedCycleElsewhere(t, dispstat);
      CycleKeepsAligned(t, dispstat);
      CycleKeepsTiming(t, dispstat);
    }
  }

  /** On an aligned clock the row and column are those of the counter, so the counter alone fixes the position. */
  lemma AlignedPosition(t: Timing)
    requires ValidTiming(t) && Aligned(t)
    ensures t.row == t.cycle / ROW_CYCLES && t.col == (t.cycle % ROW_CYCLES) / 4
  {
  }

  /** With the intended `Cycle` the VCOUNT flag is set at a row end exactly when LYC equals the row stored into VCOUNT. */
  lemma CorrectedVCountFlag(t: Timing, dispstat: bv16)
    requires ValidTiming(t) && NewRow(t)
    ensures CorrectedCycle(t, dispstat).vcount == Some((t.row + 1) % ROWS)
    ensures BitTest16(CorrectedCycle(t, dispstat).dispstat, 2) <==> Lyc(dispstat) == (t.row + 1) % ROWS
  {
    if t.row + 1 == ROWS {
      CorrectedFrameWrapStep(t, dispstat);
      WrapStatusVCount(dispstat, RowMatch(dispstat, 0));
      ClearKeepsLyc(dispstat);
    } else {
      CorrectedCycleElsewhere(t, dispstat);
      VCountFlag(t, dispstat);
      VCountStore(t, dispstat);
    }
  }

  /** The intended compare flags and interrupts the wrap to row 0 when LYC is 0. */
  lemma CorrectedLycAtFrameWrap()
    ensures var k := CorrectedCycle(Timing(227, 307, 280895), 0x0020);
            k.vcount == Some(0) && BitTest16(k.dispstat, 2) && k.irq == 4
  {
    CorrectedFrameWrapStep(Timing(227, 307, 280895), 0x0020);
    ClearKeepsLyc(0x0020);
    assert RowMatch(0x0020, 0);
    WrapStatusVCount(0x0020, true);
    RowIrqEnabled(0x0020, true);
  }

  /** `arr[k] = (byte)val; arr[k + 1] = (byte)(val >> 8);` as `Write16` stores into palette RAM and OAM. */
  method StorePair(arr: array<bv8>, k: nat, val: bv16)
    requires k + 1 < arr.Length
    modifies arr
    ensures arr[..] == Poke(Poke(old(arr[..]), k, Lo8(val)), k + 1, Hi8(val))
  {
    arr[k] := Lo8(val);
    arr[k + 1] := Hi8(val);
  }

  /** The two VRAM stores of `Write16`; the second one faults past the end of the array. */
  method StoreVram(arr: array<bv8>, k: nat, val: bv16) returns (fault: bool)
    requires k < arr.Length
    modifies arr
    ensures fault <==> k + 1 >= arr.Length
    ensures arr[..] == if fault then Poke(old(arr[..]), k, Lo8(val)) else Poke(Poke(old(arr[..]), k, Lo8(val)), k + 1, Hi8(val))
  {
    arr[k] := Lo8(val);
    if k + 1 < arr.Length {
      arr[k + 1] := Hi8(val);
      fault := false;
    } else {
      fault := true;
    }
  }

  /** The DISPSTAT update of a row end, given the VCOUNT compare. */
  method CompareRow(dispstat: bv16, hit: bool) returns (ds: bv16, irq: bv16)
    ensures ds == RowStatus(dispstat, hit)
    ensures irq == RowIrq(dispstat, hit)
  {
    var ds1 := BitClear16(dispstat, 1);
    if hit {
      ds := BitSet16(ds1, 2);
      irq := if BitTest16(ds, 5) then 4 else 0;
    } else {
      ds := BitClear16(ds1, 2);
      irq := 0;
    }
  }

  // The three outcomes of a row end, each built from the compare's results.

  lemma WrapEnds(t: Timing, dispstat: bv16, k: Tick)
    requires t.row + 1 == ROWS
    requires var hit := RowMatch(dispstat, ROWS);
             k == Tick(Timing(0, 0, 0), WrapStatus(dispstat, hit), Some(0), RowIrq(dispstat, hit), false, false)
    ensures k == EndOfRow(t, dispstat)
  {
  }

  lemma VBlankEnds(t: Timing, dispstat: bv16, k: Tick)
    requires t.row + 1 == VISIBLE_ROWS
    requires var hit := RowMatch(dispstat, VISIBLE_ROWS);
             k == Tick(Timing(VISIBLE_ROWS, 0, t.cycle), VBlankStatus(dispstat, hit), Some(VISIBLE_ROWS), VBlankIrq(dispstat, hit), true, false)
    ensures k == EndOfRow(t, dispstat)
  {
  }

  lemma RowEnds(t: Timing, dispstat: bv16, k: Tick)
    requires t.row + 1 != ROWS && t.row + 1 != VISIBLE_ROWS
    requires var hit := RowMatch(dispstat, t.row + 1);
             k == Tick(Timing(t.row + 1, 0, t.cycle), RowStatus(dispstat, hit), Some(t.row + 1), RowIrq(dispstat, hit), false, false)
    ensures k == EndOfRow(t, dispstat)
  {
  }

  // ---------------------------------------------------------------------
  // The object

  /** `class PPU`: the three memories and the dot clock. */
  class Ppu {
    const palette: array<bv8>
    const vram: array<bv8>
    const oam: array<bv8>
    var currentRow: nat
    var currentCol: nat
    var currentCycle: nat

    ghost function Mem(): Memory
      reads palette, vram, oam
    {
      Memory(palette[..], vram[..], oam[..])
    }

    ghost function Clock(): Timing
      reads this
    {
      Timing(currentRow, currentCol, currentCycle)
    }

    /** The array sizes, three distinct arrays, and a clock within its frame whose position agrees with its counter. */
    ghost predicate Valid()
      reads this, palette, vram, oam
    {
      palette.Length == PALETTE_SIZE && vram.Length == VRAM_SIZE && oam.Length == OAM_SIZE &&
      palette != vram && vram != oam && palette != oam &&
      ValidTiming(Clock()) && Aligned(Clock())
    }

    /** `new PPU(gba)`: zeroed memories, the clock at row 0, column 0, cycle 0. */
    constructor ()
      ensures Valid() && fresh(palette) && fresh(vram) && fresh(oam)
      ensures Mem() == Memory(seq(PALETTE_SIZE, _ => 0), seq(VRAM_SIZE, _ => 0), seq(OAM_SIZE, _ => 0))
      ensures Clock() == Timing(0, 0, 0)
    {
      palette := new bv8[PALETTE_SIZE](_ => 0);
      vram := new bv8[VRAM_SIZE](_ => 0);
      oam := new bv8[OAM_SIZE](_ => 0);
      currentRow, currentCol, currentCycle := 0, 0, 0;
      new;
      assert palette[..] == seq(PALETTE_SIZE, _ => 0);
      assert vram[..] == seq(VRAM_SIZE, _ => 0);
      assert oam[..] == seq(OAM_SIZE, _ => 0);
    }

    method Read8(addr: bv32) returns (b: bv8)
      requires Valid()
      ensures b == Read8Spec(Mem(), addr)
    {
      var area := Area(addr);
      if area == 0x5 {
        ByteIndexInRange(addr);
        b := palette[ByteIndex(addr)];
      } else if area == 0x6 {
        VramIndexInRange(addr);
        b := vram[VramIndex(addr)];
      } else if area == 0x7 {
        ByteIndexInRange(addr);
        b := oam[ByteIndex(addr)];
      } else {
        b := 0xff;
      }
    }

    /** `Write16`; `fault` is the `IndexOutOfRangeException` of a VRAM store past the array. */
    method Write16(addr: bv32, val: bv16) returns (fault: bool)
      requires Valid()
      modifies palette, vram, oam
      ensures Valid()
      ensures Written(Mem(), fault) == Write16Spec(old(Mem()), addr, val)
    {
      var area := Area(addr);
      fault := false;
      if area == 0x5 {
        PairIndexInRange(addr);
        StorePair(palette, PairIndex(addr), val);
      } else if area == 0x6 {
        VramIndexInRange(addr);
        fault := StoreVram(vram, VramIndex(addr), val);
      } else if area == 0x7 {
        PairIndexInRange(addr);
        StorePair(oam, PairIndex(addr), val);
      }
    }

    method Write8(addr: bv32, val: bv8) returns (fault: bool)
      requires Valid()
      modifies palette, vram, oam
      ensures Valid()
      ensures Written(Mem(), fault) == Write8Spec(old(Mem()), addr, val)
    {
      fault := Write16(addr, Join8(val, val));
    }

    /** The inherited `Read16`. */
    method Read16(addr: bv32) returns (h: bv16)
      requires Valid()
      ensures h == CsBusPeripheral.Read16(Reader(Mem()), addr)
    {
      var lo := Read8(addr);
      var hi := Read8(addr + 1);
      h := Join8(lo, hi);
    }

    /** The inherited `Read32`. */
    method Read32(addr: bv32) returns (w: bv32)
      requires Valid()
      ensures w == CsBusPeripheral.Read32(Reader(Mem()), addr)
    {
      var lo := Read16(addr);
      var hi := Read16(addr + 2);
      w := Join16(lo, hi);
    }

    /** The base class's `Write16`, which the inherited `Write32` calls: two `Write8` calls. */
    method InheritedWrite16(addr: bv32, val: bv16) returns (fault: bool)
      requires Valid()
      modifies palette, vram, oam
      ensures Valid()
      ensures Written(Mem(), fault) == WriteBytes(old(Mem()), CsBusPeripheral.Write16(addr, val))
    {
      WriteBytesTwo(Mem(), CsBusPeripheral.ByteWrite(addr, Lo8(val)), CsBusPeripheral.ByteWrite(addr + 1, Hi8(val)));
      fault := Write8(addr, Lo8(val));
      if !fault {
        fault := Write8(addr + 1, Hi8(val));
      }
    }

    /** The inherited `Write32` (see `Write32AsWritten`). */
    method Write32(addr: bv32, val: bv32) returns (fault: bool)
      requires Valid()
      modifies palette, vram, oam
      ensures Valid()
      ensures Written(Mem(), fault) == Write32AsWritten(old(Mem()), addr, val)
    {
      Write32Halves(Mem(), addr, val, addr + 2);
      fault := InheritedWrite16(addr, Lo16(val));
      if !fault {
        fault := InheritedWrite16(addr + 2, Hi16(val));
      }
    }

    /**
     * `Cycle`, given DISPSTAT's value: returns its new value, the row stored
     * into VCOUNT, the interrupt bits raised, and whether the frame event
     * fires and `DrawLine` is called.
     */
    method Cycle(dispstat: bv16) returns (ds: bv16, vcount: Option<nat>, irq: bv16, frame: bool, drawLine: bool)
      requires Valid()
      modifies this
      ensures Valid()
      ensures Tick(Clock(), ds, vcount, irq, frame, drawLine) == CycleSpec(old(Clock()), dispstat)
    {
      ghost var t := Clock();
      ds, vcount, irq, frame, drawLine := Step(dispstat);
      ghost var k := Tick(Clock(), ds, vcount, irq, frame, drawLine);
      assert k == Advance(t, dispstat);
      currentCycle := currentCycle + 1;
      if currentCycle == FRAME_CYCLES {
        currentCycle := 0;
      }
      assert Tick(Clock(), ds, vcount, irq, frame, drawLine) == Count(k);
      CycleKeepsTiming(t, dispstat);
      CycleKeepsAligned(t, dispstat);
    }

    /** The column step of `Cycle`, on every fourth cycle. */
    method Step(dispstat: bv16) returns (ds: bv16, vcount: Option<nat>, irq: bv16, frame: bool, drawLine: bool)
      modifies this
      ensures Tick(Clock(), ds, vcount, irq, frame, drawLine) == Advance(old(Clock()), dispstat)
    {
      ds, vcount, irq, frame, drawLine := dispstat, None, 0, false, false;
      if currentCycle % 4 == 3 {
        if currentCol + 1 == COLUMNS {
          ds, vcount, irq, frame := EndRow(dispstat);
        } else {
          currentCol := currentCol + 1;
          if currentCol == VISIBLE_COLUMNS {
            ds := BitSet16(dispstat, 1);
            irq := if BitTest16(ds, 4) then 2 else 0;
            drawLine := currentRow < VISIBLE_ROWS;
          }
        }
      }
    }

    /** The `currentCol == 308` branch of `Cycle`: the compare against the next row, then the row's own update. */
    method EndRow(dispstat: bv16) returns (ds: bv16, vcount: Option<nat>, irq: bv16, frame: bool)
      modifies this
      ensures Tick(Clock(), ds, vcount, irq, frame, false) == EndOfRow(old(Clock()), dispstat)
    {
      if currentRow + 1 == ROWS {
        ds, vcount, irq := WrapFrame(dispstat);
        frame := false;
      } else if currentRow + 1 == VISIBLE_ROWS {
        ds, vcount, irq := EnterVBlank(dispstat);
        frame := true;
      } else {
        ds, vcount, irq := NextRow(dispstat);
        frame := false;
      }
    }

    /** The end of row 227: back to row 0 and cycle 0, VBlank cleared. */
    method WrapFrame(dispstat: bv16) returns (ds: bv16, vcount: Option<nat>, irq: bv16)
      requires currentRow + 1 == ROWS
      modifies this
      ensures Tick(Clock(), ds, vcount, irq, false, false) == EndOfRow(old(Clock()), dispstat)
    {
      ghost var t := Clock();
      var hit := RowMatch(dispstat, ROWS);
      ds, irq := CompareRow(dispstat, hit);
      currentRow, currentCol, currentCycle := 0, 0, 0;
      ds := BitClear16(ds, 0);
      vcount := Some(0);
      WrapEnds(t, dispstat, Tick(Clock(), ds, vcount, irq, false, false));
    }

    /** The end of row 159: VBlank set, and its interrupt when enabled. */
    method EnterVBlank(dispstat: bv16) returns (ds: bv16, vcount: Option<nat>, irq: bv16)
      requires currentRow + 1 == VISIBLE_ROWS
      modifies this
      ensures Tick(Clock(), ds, vcount, irq, true, false) == EndOfRow(old(Clock()), dispstat)
    {
      ghost var t := Clock();
      var hit := RowMatch(dispstat, VISIBLE_ROWS);
      ds, irq := CompareRow(dispstat, hit);
      currentRow, currentCol := VISIBLE_ROWS, 0;
      ds := BitSet16(ds, 0);
      if BitTest16(ds, 3) {
        irq := irq | 1;
      }
      vcount := Some(VISIBLE_ROWS);
      VBlankEnds(t, dispstat, Tick(Clock(), ds, vcount, irq, true, false));
    }

    /** The end of any other row. */
    method NextRow(dispstat: bv16) returns (ds: bv16, vcount: Option<nat>, irq: bv16)
      requires currentRow + 1 != ROWS && currentRow + 1 != VISIBLE_ROWS
      modifies this
      ensures Tick(Clock(), ds, vcount, irq, false, false) == EndOfRow(old(Clock()), dispstat)
    {
      ghost var t := Clock();
      var hit := RowMatch(dispstat, currentRow + 1);
      ds, irq := CompareRow(dispstat, hit);
      currentRow, currentCol := currentRow + 1, 0;
      vcount := Some(currentRow);
      RowEnds(t, dispstat, Tick(Clock(), ds, vcount, irq, false, false));
    }
  }
}
