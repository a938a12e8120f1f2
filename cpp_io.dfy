// src/gbaemu/gba/io.cpp: the I/O register table of the C++ core. `io` has
// 0x402 entries, one per halfword of the I/O region 0x0400_0000-0x0400_07ff
// plus two for MEMCTL at 0x0400_0800, which repeats every 64 KB. Each entry
// holds the register's value, the masks that limit what reads see and what
// writes change, and the handler a 16-bit write calls. `set` and `get` are
// the emulator's own back door: they go past the masks and the handlers.
//
// The handlers live in other files (lcd.cpp, dma.cpp, timer.cpp and the CPU's
// interrupt code): a write returns the calls it makes, in order.

module CppIo {
  import opened Bits

  const UINT32_MAX: bv32 := 0xffff_ffff
  const SLOT_COUNT: nat := 0x402

  // Register numbers of the `ioreg_t` enumeration used outside this file.
  const DISPCNT: nat := 0x000
  const DISPSTAT: nat := 0x004
  const VCOUNT: nat := 0x006
  const BG0CNT: nat := 0x008
  const BG0HOFS: nat := 0x010
  const BG0VOFS: nat := 0x012
  const KEYINPUT: nat := 0x130
  /** `IE` and `IF` carry the same number in io.hpp: 0x200, the offset of IE. */
  const IE: nat := 0x200
  const IF: nat := 0x200
  /** The offset of the interrupt request register IF in the I/O region. */
  const IF_OFFSET: nat := 0x202

  /** The write handlers `init` installs. */
  datatype Callback = Dispcnt | DmaControl(channel: nat) | TimerControl(timer: nat, high: bool) | InterruptFlags

  /** A call `writeCallback(value)`. */
  datatype Call = Call(callback: Callback, value: bv16)

  /** `ioregTableEntry_t`. */
  datatype Entry = Entry(registerNumber: nat, value: bv16, writeCallback: Option<Callback>,
                         readMask: bv16, writeMask: bv16)

  /** The entry `init` first gives every slot: no register, no access. */
  const BLANK: Entry := Entry(0, 0, None, 0, 0)

  // ------------------------------------------------------------- addresses

  /**
   * `convertAddress`: the slot of an address. MEMCTL and its mirrors take
   * slots 0x400 and 0x401; anything else below 0x0400_0800 takes bits
   * 10-1; the rest is unmapped (UINT32_MAX).
   */
  function ConvertAddress(address: bv32): (slot: bv32)
    ensures slot == UINT32_MAX || slot < 0x402
  {
    if address & 0xff00_fffc == 0x0400_0800 then (0x800 | (address & 3)) >> 1
    else if address < 0x0400_0800 then (address & 0x7ff) >> 1
    else UINT32_MAX
  }

  /** A slot number as an index into the table. */
  function Index(slot: bv32): (k: nat)
    requires slot < 0x402
    ensures k < SLOT_COUNT
  {
    (slot as bv11) as nat
  }

  lemma IndexInjective(s: bv32, t: bv32)
    requires s < 0x402 && t < 0x402 && Index(s) == Index(t)
    ensures s == t
  {
    Widen(s);
    Widen(t);
    NatInjective(s as bv11, t as bv11);
  }

  lemma Widen(s: bv32)
    requires s < 0x402
    ensures (s as bv11) as bv32 == s
  {
  }

  lemma NatInjective(x: bv11, y: bv11)
    requires x as nat == y as nat
    ensures x == y
  {
    NatRoundTrip(x);
    NatRoundTrip(y);
  }

  /** A slot number read as a number and narrowed back is itself. */
  lemma NatRoundTrip(x: bv11)
    ensures (x as nat) as bv11 == x
  {
  }

  /** The even address of the I/O region whose halfword is `slot`. */
  function SlotAddress(slot: bv32): bv32
    requires slot < 0x402
  {
    if slot < 0x400 then 0x0400_0000 | (slot << 1)
    else 0x0400_0800 | ((slot & 1) << 1)
  }

  /** An even address `init` walks: 0x0400_0000 to 0x0400_0802. */
  predicate InitAddress(a: bv32) {
    0x0400_0000 <= a < 0x0400_0804 && a & 1 == 0
  }

  /** Every slot has its address, and the address converts back to the slot. */
  lemma SlotAddressConverts(slot: bv32)
    requires slot < 0x402
    ensures InitAddress(SlotAddress(slot)) && ConvertAddress(SlotAddress(slot)) == slot
  {
  }

  /** Every address `init` walks has a slot, and the slot's address is that address. */
  lemma ConvertsToSlotAddress(a: bv32)
    requires InitAddress(a)
    ensures ConvertAddress(a) < 0x402 && SlotAddress(ConvertAddress(a)) == a
  {
  }

  /** Two addresses `init` walks never share a slot. */
  lemma InitSlotsDistinct(a: bv32, b: bv32)
    requires InitAddress(a) && InitAddress(b) && a != b
    ensures Index(ConvertAddress(a)) != Index(ConvertAddress(b))
  {
    ConvertsToSlotAddress(a);
    ConvertsToSlotAddress(b);
    if Index(ConvertAddress(a)) == Index(ConvertAddress(b)) {
      IndexInjective(ConvertAddress(a), ConvertAddress(b));
    }
  }

  /** MEMCTL repeats every 64 KB: 0x04xx_0800-0x04xx_0803 are the slots of 0x0400_0800-0x0400_0803. */
  lemma MemctlMirror(address: bv32)
    requires address & 0xff00_fffc == 0x0400_0800
    ensures ConvertAddress(address) == ConvertAddress(0x0400_0800 | (address & 3))
    ensures ConvertAddress(address) == 0x400 || ConvertAddress(address) == 0x401
  {
  }

  /** The unmapped addresses: from 0x0400_0800 up, except the MEMCTL mirrors. */
  lemma UnmappedIff(address: bv32)
    ensures ConvertAddress(address) == UINT32_MAX
            <==> address >= 0x0400_0800 && address & 0xff00_fffc != 0x0400_0800
  {
  }

  /** The slot of a mapped address. */
  function SlotOf(address: bv32): nat
    requires ConvertAddress(address) != UINT32_MAX
  {
    Index(ConvertAddress(address))
  }

  // ------------------------------------------------------------ accesses

  predicate Shaped(t: seq<Entry>) {
    |t| == SLOT_COUNT
  }

  /** Bit 0 cleared: the halfword an address lies in. */
  function Half(address: bv32): bv32 {
    address & 0xffff_fffe
  }

  /** Bits 1-0 cleared: the word an address lies in. */
  function Word(address: bv32): bv32 {
    address & 0xffff_fffc
  }

  /** `read16`: the masked value of the slot, 0 for an unmapped address. */
  function Read16Spec(t: seq<Entry>, address: bv32): bv16
    requires Shaped(t)
  {
    var slot := ConvertAddress(Half(address));
    if slot == UINT32_MAX then 0
    else t[Index(slot)].value & t[Index(slot)].readMask
  }

  /** `read8`: the byte of the halfword bit 0 selects. */
  function Read8Spec(t: seq<Entry>, address: bv32): bv8
    requires Shaped(t)
  {
    if address & 1 != 0 then Hi8(Read16Spec(t, address)) else Lo8(Read16Spec(t, address))
  }

  /** `read32`: the two halfwords of the aligned word, low first. */
  function Read32Spec(t: seq<Entry>, address: bv32): bv32
    requires Shaped(t)
  {
    Join16(Read16Spec(t, Word(address)), Read16Spec(t, Word(address) | 2))
  }

  lemma Read32Def(t: seq<Entry>, address: bv32)
    requires Shaped(t)
    ensures Read32Spec(t, address) == Join16(Read16Spec(t, Word(address)), Read16Spec(t, Word(address) | 2))
  {
  }

  /** The bits a write may change are replaced, the others kept. */
  function Merge(current: bv16, v: bv16, writeMask: bv16): bv16 {
    (current & !writeMask) | (v & writeMask)
  }

  /** The table and handler calls a write leaves. */
  datatype Written = Written(table: seq<Entry>, calls: seq<Call>)

  /** `write16`: nothing for an unmapped address; else the masked merge and the handler, given the raw value. */
  function Write16Spec(t: seq<Entry>, address: bv32, v: bv16): (w: Written)
    requires Shaped(t)
    ensures Shaped(w.table)
  {
    var slot := ConvertAddress(Half(address));
    if slot == UINT32_MAX then Written(t, [])
    else
      var e := t[Index(slot)];
      Written(t[Index(slot) := e.(value := Merge(e.value, v, e.writeMask))],
              if e.writeCallback.Some? then [Call(e.writeCallback.value, v)] else [])
  }

  /** `write8`: the byte merged into `read16`'s view of the halfword, then written as a halfword. */
  function Write8Halfword(t: seq<Entry>, address: bv32, v: bv8): bv16
    requires Shaped(t)
  {
    if address & 1 != 0 then Join8(Lo8(Read16Spec(t, address)), v)
    else Join8(v, Hi8(Read16Spec(t, address)))
  }

  function Write8Spec(t: seq<Entry>, address: bv32, v: bv8): (w: Written)
    requires Shaped(t)
    ensures Shaped(w.table)
  {
    Write16Spec(t, address, Write8Halfword(t, address, v))
  }

  /** `write32`: the low halfword to the aligned word, then the high one. */
  function Write32Spec(t: seq<Entry>, address: bv32, v: bv32): (w: Written)
    requires Shaped(t)
    ensures Shaped(w.table)
  {
    var low := Write16Spec(t, Word(address), Lo16(v));
    var high := Write16Spec(low.table, Word(address) | 2, Hi16(v));
    Written(high.table, low.calls + high.calls)
  }

  lemma Write32Def(t: seq<Entry>, address: bv32, v: bv32)
    requires Shaped(t)
    ensures var low := Write16Spec(t, Word(address), Lo16(v));
            var high := Write16Spec(low.table, Word(address) | 2, Hi16(v));
            Write32Spec(t, address, v) == Written(high.table, low.calls + high.calls)
  {
  }

  /** `set` and `get` take a byte offset into the region: slot `index >> 1`. */
  predicate InTable(index: nat) {
    index / 2 < SLOT_COUNT
  }

  /** `set`: the value stored as is, past the write mask and without the handler. */
  function SetSpec(t: seq<Entry>, index: nat, v: bv16): (t': seq<Entry>)
    requires Shaped(t) && InTable(index)
    ensures Shaped(t')
  {
    t[index / 2 := t[index / 2].(value := v)]
  }

  /** `get`: the value as stored, past the read mask. */
  function GetSpec(t: seq<Entry>, index: nat): bv16
    requires Shaped(t) && InTable(index)
  {
    t[index / 2].value
  }

  /**
   * `set32` as written stores the high halfword at `index + 1`, which for
   * an even index is the same slot; corrected, at `index + 2`.
   */
  function Set32Spec(t: seq<Entry>, index: nat, v: bv32, corrected: bool): (t': seq<Entry>)
    requires Shaped(t) && InTable(if corrected then index + 2 else index + 1)
    ensures Shaped(t')
  {
    var next := if corrected then index + 2 else index + 1;
    SetSpec(SetSpec(t, index, Lo16(v)), next, Hi16(v))
  }

  /** `get32` as written reads the high halfword from `index + 1`; corrected, from `index + 2`. */
  function Get32Spec(t: seq<Entry>, index: nat, corrected: bool): bv32
    requires Shaped(t) && InTable(if corrected then index + 2 else index + 1)
  {
    var next := if corrected then index + 2 else index + 1;
    Join16(GetSpec(t, index), GetSpec(t, next))
  }

  // --------------------------------------------------------- properties

  /** An unmapped address reads 0; a mapped one reads the value under the read mask. */
  lemma Read16Masked(t: seq<Entry>, address: bv32)
    requires Shaped(t)
    ensures ConvertAddress(Half(address)) == UINT32_MAX ==> Read16Spec(t, address) == 0
    ensures ConvertAddress(Half(address)) != UINT32_MAX ==>
              Read16Spec(t, address) & !t[SlotOf(Half(address))].readMask == 0
  {
  }

  /** A write to an unmapped address changes nothing and calls nothing. */
  lemma UnmappedWriteIgnored(t: seq<Entry>, address: bv32, v: bv16)
    requires Shaped(t) && ConvertAddress(Half(address)) == UINT32_MAX
    ensures Write16Spec(t, address, v) == Written(t, [])
  {
  }

  /**
   * A mapped write changes only the value of its slot, only in the bits
   * of the write mask, and hands the handler, if any, the raw value.
   */
  lemma Write16Effect(t: seq<Entry>, address: bv32, v: bv16, k: nat)
    requires Shaped(t) && ConvertAddress(Half(address)) != UINT32_MAX && k < SLOT_COUNT
    ensures var w := Write16Spec(t, address, v);
            var s := SlotOf(Half(address));
            (k != s ==> w.table[k] == t[k]) &&
            (k == s ==> w.table[k] == t[k].(value := Merge(t[k].value, v, t[k].writeMask))) &&
            |w.calls| <= 1 &&
            (t[s].writeCallback.Some? ==> w.calls == [Call(t[s].writeCallback.value, v)])
  {
  }

  /** Merging keeps the bits outside the mask and takes the value's inside it. */
  lemma MergeBits(current: bv16, v: bv16, writeMask: bv16)
    ensures Merge(current, v, writeMask) & !writeMask == current & !writeMask
    ensures Merge(current, v, writeMask) & writeMask == v & writeMask
  {
  }

  /** A register read and written in full reads back what was written. */
  lemma Write16ThenRead16(t: seq<Entry>, address: bv32, v: bv16)
    requires Shaped(t) && ConvertAddress(Half(address)) != UINT32_MAX
    requires t[SlotOf(Half(address))].readMask == 0xffff
    requires t[SlotOf(Half(address))].writeMask == 0xffff
    ensures Read16Spec(Write16Spec(t, address, v).table, address) == v
  {
    FullMerge(t[SlotOf(Half(address))].value, v);
  }

  lemma FullMerge(current: bv16, v: bv16)
    ensures Merge(current, v, 0xffff) & 0xffff == v
  {
  }

  /** A register with an empty write mask (VCOUNT, KEYINPUT, IR) is not changed by a write. */
  lemma ReadOnlyUnchanged(t: seq<Entry>, address: bv32, v: bv16)
    requires Shaped(t) && ConvertAddress(Half(address)) != UINT32_MAX
    requires t[SlotOf(Half(address))].writeMask == 0
    ensures Write16Spec(t, address, v).table == t
  {
    EmptyMerge(t[SlotOf(Half(address))].value, v);
  }

  lemma EmptyMerge(current: bv16, v: bv16)
    ensures Merge(current, v, 0) == current
  {
  }

  /**
   * A byte write to a register with an empty read mask (the write-only
   * scroll, affine and window registers) clears the other byte: `read16`
   * shows `write8` zero there.
   */
  lemma Write8ClearsUnreadByte(t: seq<Entry>, address: bv32, v: bv8)
    requires Shaped(t) && ConvertAddress(Half(address)) != UINT32_MAX
    requires t[SlotOf(Half(address))].readMask == 0
    ensures address & 1 != 0 ==> Write8Halfword(t, address, v) == Join8(0, v)
    ensures address & 1 == 0 ==> Write8Halfword(t, address, v) == Join8(v, 0)
  {
    ZeroMasked(t[SlotOf(Half(address))].value);
  }

  lemma ZeroMasked(value: bv16)
    ensures value & 0 == 0 && Lo8(0) == 0 && Hi8(0) == 0
  {
  }

  /** A byte write to a register read and written in full changes only its byte. */
  lemma Write8ThenRead8(t: seq<Entry>, address: bv32, v: bv8)
    requires Shaped(t) && ConvertAddress(Half(address)) != UINT32_MAX
    requires t[SlotOf(Half(address))].readMask == 0xffff
    requires t[SlotOf(Half(address))].writeMask == 0xffff
    ensures Read8Spec(Write8Spec(t, address, v).table, address) == v
    ensures Read8Spec(Write8Spec(t, address, v).table, address ^ 1) == Read8Spec(t, address ^ 1)
  {
    var h := Write8Halfword(t, address, v);
    Write16ThenRead16(t, address, h);
    SameHalf(address);
    Split8Join(Lo8(Read16Spec(t, address)), v);
    Split8Join(v, Hi8(Read16Spec(t, address)));
  }

  lemma SameHalf(address: bv32)
    ensures Half(address ^ 1) == Half(address)
    ensures (address ^ 1) & 1 != 0 <==> address & 1 == 0
  {
  }

  /** `read32` is the two `read16`s of its word. */
  lemma Read32Halves(t: seq<Entry>, address: bv32)
    requires Shaped(t)
    ensures Lo16(Read32Spec(t, address)) == Read16Spec(t, Word(address))
    ensures Hi16(Read32Spec(t, address)) == Read16Spec(t, Word(address) | 2)
  {
    Read32Def(t, address);
    Split16Join(Read16Spec(t, Word(address)), Read16Spec(t, Word(address) | 2));
  }

  /** `get` after `set` at the same slot gives the value; other slots keep theirs. */
  lemma SetThenGet(t: seq<Entry>, index: nat, other: nat, v: bv16)
    requires Shaped(t) && InTable(index) && InTable(other)
    ensures GetSpec(SetSpec(t, index, v), other) == if index / 2 == other / 2 then v else GetSpec(t, other)
  {
  }

  /** `set` changes no mask and no handler. */
  lemma SetKeepsMasks(t: seq<Entry>, index: nat, v: bv16, k: nat)
    requires Shaped(t) && InTable(index) && k < SLOT_COUNT
    ensures var t' := SetSpec(t, index, v);
            t'[k].readMask == t[k].readMask && t'[k].writeMask == t[k].writeMask &&
            t'[k].writeCallback == t[k].writeCallback
  {
  }

  /** Corrected, `get32` reads back what `set32` stored at an even index. */
  lemma Set32ThenGet32(t: seq<Entry>, index: nat, v: bv32)
    requires Shaped(t) && InTable(index + 2) && index % 2 == 0
    ensures Get32Spec(Set32Spec(t, index, v, true), index, true) == v
  {
    Join16Split(v);
  }

  /** As written, at an even index `get32` repeats the low halfword in the high one. */
  lemma Get32AsWrittenRepeats(t: seq<Entry>, index: nat)
    requires Shaped(t) && InTable(index + 1) && index % 2 == 0
    ensures Get32Spec(t, index, false) == Join16(GetSpec(t, index), GetSpec(t, index))
  {
    assert (index + 1) / 2 == index / 2;
  }

  /** As written, at an even index `set32` leaves only the high halfword, in the low slot. */
  lemma Set32AsWrittenOverwrites(t: seq<Entry>, index: nat, v: bv32)
    requires Shaped(t) && InTable(index + 2) && index % 2 == 0
    ensures var t' := Set32Spec(t, index, v, false);
            GetSpec(t', index) == Hi16(v) && GetSpec(t', index + 2) == GetSpec(t, index + 2)
  {
    assert (index + 1) / 2 == index / 2;
  }

  /**
   * DMA0SAD (offset 0x0b0) holding 0x0800_1234: `get32` as written reads
   * 0x1234_1234; `set32` of 0x0800_1234 then `get32` reads 0x0800_0800.
   */
  lemma Get32Counterexample(t: seq<Entry>)
    requires Shaped(t) && t[0x58].value == 0x1234 && t[0x59].value == 0x0800
    ensures Get32Spec(t, 0x0b0, true) == 0x0800_1234
    ensures Get32Spec(t, 0x0b0, false) == 0x1234_1234
    ensures Get32Spec(Set32Spec(t, 0x0b0, 0x0800_1234, false), 0x0b0, false) == 0x0800_0800
  {
    assert Hi16(0x0800_1234) == 0x0800 && Lo16(0x0800_1234) == 0x1234;
  }

  /**
   * `IF` has IE's number: `set(IF, ...)` and `get(IF)` reach the slot of IE
   * (0x0400_0200). The IF register is the next slot, at 0x0400_0202.
   */
  lemma InterruptFlagsSlot()
    ensures IF / 2 == SlotOf(0x0400_0200)
    ensures IF_OFFSET / 2 == SlotOf(0x0400_0202)
    ensures IF / 2 != IF_OFFSET / 2
  {
    assert ConvertAddress(0x0400_0200) == 0x100;
    assert ConvertAddress(0x0400_0202) == 0x101;
  }

  // ---------------------------------------------------------------- init

  /** The entry of the slot of `address` replaced: `initRegister` on the table. */
  function Install(t: seq<Entry>, address: bv32, e: Entry): (t': seq<Entry>)
    requires Shaped(t) && InitAddress(address)
    ensures Shaped(t')
  {
    ConvertsToSlotAddress(address);
    t[SlotOf(address) := e]
  }

  /** The display control, background control and scroll registers as `init` installs them (io.cpp lines 35-50). */
  function BackgroundsRegisters(t: seq<Entry>): (t': seq<Entry>)
    requires Shaped(t)
    ensures Shaped(t')
  {
    var t1 := Install(t, 0x0400_0000, Entry(0x000, 0, Some(Dispcnt), 0xffff, 0xffff)); // DISPCNT
    var t2 := Install(t1, 0x0400_0002, Entry(0x002, 0, None, 0xffff, 0xffff)); // GREENSWP
    var t3 := Install(t2, 0x0400_0004, Entry(0x004, 0, None, 0xffff, 0xffff)); // DISPSTAT
    var t4 := Install(t3, 0x0400_0006, Entry(0x006, 0, None, 0xffff, 0x0000)); // VCOUNT
    var t5 := Install(t4, 0x0400_0008, Entry(0x008, 0, None, 0xffff, 0xffff)); // BG0CNT
    var t6 := Install(t5, 0x0400_000a, Entry(0x00a, 0, None, 0xffff, 0xffff)); // BG1CNT
    var t7 := Install(t6, 0x0400_000c, Entry(0x00c, 0, None, 0xffff, 0xffff)); // BG2CNT
    var t8 := Install(t7, 0x0400_000e, Entry(0x00e, 0, None, 0xffff, 0xffff)); // BG3CNT
    var t9 := Install(t8, 0x0400_0010, Entry(0x010, 0, None, 0x0000, 0xffff)); // BG0HOFS
    var t10 := Install(t9, 0x0400_0012, Entry(0x012, 0, None, 0x0000, 0xffff)); // BG0VOFS
    var t11 := Install(t10, 0x0400_0014, Entry(0x014, 0, None, 0x0000, 0xffff)); // BG1HOFS
    var t12 := Install(t11, 0x0400_0016, Entry(0x016, 0, None, 0x0000, 0xffff)); // BG1VOFS
    var t13 := Install(t12, 0x0400_0018, Entry(0x018, 0, None, 0x0000, 0xffff)); // BG2HOFS
    var t14 := Install(t13, 0x0400_001a, Entry(0x01a, 0, None, 0x0000, 0xffff)); // BG2VOFS
    var t15 := Install(t14, 0x0400_001c, Entry(0x01c, 0, None, 0x0000, 0xffff)); // BG3HOFS
    var t16 := Install(t15, 0x0400_001e, Entry(0x01e, 0, None, 0x0000, 0xffff)); // BG3VOFS
    t16
  }

  /** The affine, window, mosaic and blending registers as `init` installs them (io.cpp lines 51-76). */
  function EffectsRegisters(t: seq<Entry>): (t': seq<Entry>)
    requires Shaped(t)
    ensures Shaped(t')
  {
    var t1 := Install(t, 0x0400_0020, Entry(0x020, 0, None, 0x0000, 0xffff)); // BG2PA
    var t2 := Install(t1, 0x0400_0022, Entry(0x022, 0, None, 0x0000, 0xffff)); // BG2PB
    var t3 := Install(t2, 0x0400_0024, Entry(0x024, 0, None, 0x0000, 0xffff)); // BG2PC
    var t4 := Install(t3, 0x0400_0026, Entry(0x036, 0, None, 0x0000, 0xffff)); // BG3PD
    var t5 := Install(t4, 0x0400_0028, Entry(0x028, 0, None, 0x0000, 0xffff)); // BG2X_L
    var t6 := Install(t5, 0x0400_002a, Entry(0x02a, 0, None, 0x0000, 0xffff)); // BG2X_H
    var t7 := Install(t6, 0x0400_002c, Entry(0x02c, 0, None, 0x0000, 0xffff)); // BG2Y_L
    var t8 := Install(t7, 0x0400_002e, Entry(0x02e, 0, None, 0x0000, 0xffff)); // BG2Y_H
    var t9 := Install(t8, 0x0400_0030, Entry(0x030, 0, None, 0x0000, 0xffff)); // BG3PA
    var t10 := Install(t9, 0x0400_0032, Entry(0x032, 0, None, 0x0000, 0xffff)); // BG3PB
    var t11 := Install(t10, 0x0400_0034, Entry(0x034, 0, None, 0x0000, 0xffff)); // BG3PC
    var t12 := Install(t11, 0x0400_0036, Entry(0x036, 0, None, 0x0000, 0xffff)); // BG3PD
    var t13 := Install(t12, 0x0400_0038, Entry(0x038, 0, None, 0x0000, 0xffff)); // BG3X_L
    var t14 := Install(t13, 0x0400_003a, Entry(0x03a, 0, None, 0x0000, 0xffff)); // BG3X_H
    var t15 := Install(t14, 0x0400_003c, Entry(0x03c, 0, None, 0x0000, 0xffff)); // BG3Y_L
    var t16 := Install(t15, 0x0400_003e, Entry(0x03e, 0, None, 0x0000, 0xffff)); // BG3Y_H
    var t17 := Install(t16, 0x0400_0040, Entry(0x040, 0, None, 0x0000, 0xffff)); // WIN0H
    var t18 := Install(t17, 0x0400_0042, Entry(0x042, 0, None, 0x0000, 0xffff)); // WIN1H
    var t19 := Install(t18, 0x0400_0044, Entry(0x044, 0, None, 0x0000, 0xffff)); // WIN0V
    var t20 := Install(t19, 0x0400_0046, Entry(0x046, 0, None, 0x0000, 0xffff)); // WIN1V
    var t21 := Install(t20, 0x0400_0048, Entry(0x048, 0, None, 0xffff, 0xffff)); // WININ
    var t22 := Install(t21, 0x0400_004a, Entry(0x04a, 0, None, 0xffff, 0xffff)); // WINOUT
    var t23 := Install(t22, 0x0400_004c, Entry(0x04c, 0, None, 0x0000, 0xffff)); // MOSAIC
    var t24 := Install(t23, 0x0400_0050, Entry(0x050, 0, None, 0xffff, 0xffff)); // BLDCNT
    var t25 := Install(t24, 0x0400_0052, Entry(0x052, 0, None, 0xffff, 0xffff)); // BLDALPHA
    var t26 := Install(t25, 0x0400_0054, Entry(0x054, 0, None, 0x0000, 0xffff)); // BLDY
    t26
  }

  /** The sound registers as `init` installs them (io.cpp lines 77-102). */
  function SoundRegisters(t: seq<Entry>): (t': seq<Entry>)
    requires Shaped(t)
    ensures Shaped(t')
  {
    var t1 := Install(t, 0x0400_0060, Entry(0x060, 0, None, 0xffff, 0xffff)); // SOUND1CNT_L
    var t2 := Install(t1, 0x0400_0062, Entry(0x062, 0, None, 0xffff, 0xffff)); // SOUND1CNT_H
    var t3 := Install(t2, 0x0400_0064, Entry(0x064, 0, None, 0xffff, 0xffff)); // SOUND1CNT_X
    var t4 := Install(t3, 0x0400_0068, Entry(0x068, 0, None, 0xffff, 0xffff)); // SOUND2CNT_L
    var t5 := Install(t4, 0x0400_006c, Entry(0x06c, 0, None, 0xffff, 0xffff)); // SOUND2CNT_H
    var t6 := Install(t5, 0x0400_0070, Entry(0x070, 0, None, 0xffff, 0xffff)); // SOUND3CNT_L
    var t7 := Install(t6, 0x0400_0072, Entry(0x072, 0, None, 0xffff, 0xffff)); // SOUND3CNT_H
    var t8 := Install(t7, 0x0400_0074, Entry(0x074, 0, None, 0xffff, 0xffff)); // SOUND3CNT_X
    var t9 := Install(t8, 0x0400_0078, Entry(0x078, 0, None, 0xffff, 0xffff)); // SOUND4CNT_L
    var t10 := Install(t9, 0x0400_007c, Entry(0x07c, 0, None, 0xffff, 0xffff)); // SOUND4CNT_H
    var t11 := Install(t10, 0x0400_0080, Entry(0x080, 0, None, 0xffff, 0xffff)); // SOUNDCNT_L
    var t12 := Install(t11, 0x0400_0082, Entry(0x082, 0, None, 0xffff, 0xffff)); // SOUNDCNT_H
    var t13 := Install(t12, 0x0400_0084, Entry(0x084, 0, None, 0xffff, 0xffff)); // SOUNDCNT_X
    var t14 := Install(t13, 0x0400_0088, Entry(0x088, 0, None, 0xffff, 0xffff)); // SOUNDBIAS
    var t15 := Install(t14, 0x0400_0090, Entry(0x090, 0, None, 0xffff, 0xffff)); // WAVE_RAM
    var t16 := Install(t15, 0x0400_0092, Entry(0x090, 0, None, 0xffff, 0xffff)); // WAVE_RAM
    var t17 := Install(t16, 0x0400_0094, Entry(0x090, 0, None, 0xffff, 0xffff)); // WAVE_RAM
    var t18 := Install(t17, 0x0400_0096, Entry(0x090, 0, None, 0xffff, 0xffff)); // WAVE_RAM
    var t19 := Install(t18, 0x0400_0098, Entry(0x090, 0, None, 0xffff, 0xffff)); // WAVE_RAM
    var t20 := Install(t19, 0x0400_009a, Entry(0x090, 0, None, 0xffff, 0xffff)); // WAVE_RAM
    var t21 := Install(t20, 0x0400_009c, Entry(0x090, 0, None, 0xffff, 0xffff)); // WAVE_RAM
    var t22 := Install(t21, 0x0400_009e, Entry(0x090, 0, None, 0xffff, 0xffff)); // WAVE_RAM
    var t23 := Install(t22, 0x0400_00a0, Entry(0x0a0, 0, None, 0x0000, 0xffff)); // FIFO_A_L
    var t24 := Install(t23, 0x0400_00a2, Entry(0x0a2, 0, None, 0x0000, 0xffff)); // FIFO_A_H
    var t25 := Install(t24, 0x0400_00a4, Entry(0x0a4, 0, None, 0x0000, 0xffff)); // FIFO_B_L
    var t26 := Install(t25, 0x0400_00a6, Entry(0x0a6, 0, None, 0x0000, 0xffff)); // FIFO_B_H
    t26
  }

  /** The DMA registers as `init` installs them (io.cpp lines 103-126). */
  function DmaRegisters(t: seq<Entry>): (t': seq<Entry>)
    requires Shaped(t)
    ensures Shaped(t')
  {
    var t1 := Install(t, 0x0400_00b0, Entry(0x0b0, 0, None, 0x0000, 0xffff)); // DMA0SAD_L
    var t2 := Install(t1, 0x0400_00b2, Entry(0x0b2, 0, None, 0x0000, 0xffff)); // DMA0SAD_H
    var t3 := Install(t2, 0x0400_00b4, Entry(0x0b4, 0, None, 0x0000, 0xffff)); // DMA0DAD_L
    var t4 := Install(t3, 0x0400_00b6, Entry(0x0b6, 0, None, 0x0000, 0xffff)); // DMA0DAD_H
    var t5 := Install(t4, 0x0400_00b8, Entry(0x0b8, 0, None, 0x0000, 0xffff)); // DMA0CNT_L
    var t6 := Install(t5, 0x0400_00ba, Entry(0x0ba, 0, Some(DmaControl(0)), 0xffff, 0xffff)); // DMA0CNT_H
    var t7 := Install(t6, 0x0400_00bc, Entry(0x0bc, 0, None, 0x0000, 0xffff)); // DMA1SAD_L
    var t8 := Install(t7, 0x0400_00be, Entry(0x0be, 0, None, 0x0000, 0xffff)); // DMA1SAD_H
    var t9 := Install(t8, 0x0400_00c0, Entry(0x0c0, 0, None, 0x0000, 0xffff)); // DMA1DAD_L
    var t10 := Install(t9, 0x0400_00c2, Entry(0x0c2, 0, None, 0x0000, 0xffff)); // DMA1DAD_H
    var t11 := Install(t10, 0x0400_00c4, Entry(0x0c4, 0, None, 0x0000, 0xffff)); // DMA1CNT_L
    var t12 := Install(t11, 0x0400_00c6, Entry(0x0c6, 0, Some(DmaControl(1)), 0xffff, 0xffff)); // DMA1CNT_H
    var t13 := Install(t12, 0x0400_00c8, Entry(0x0c8, 0, None, 0x0000, 0xffff)); // DMA2SAD_L
    var t14 := Install(t13, 0x0400_00ca, Entry(0x0ca, 0, None, 0x0000, 0xffff)); // DMA2SAD_H
    var t15 := Install(t14, 0x0400_00cc, Entry(0x0cc, 0, None, 0x0000, 0xffff)); // DMA2DAD_L
    var t16 := Install(t15, 0x0400_00ce, Entry(0x0ce, 0, None, 0x0000, 0xffff)); // DMA2DAD_H
    var t17 := Install(t16, 0x0400_00d0, Entry(0x0d0, 0, None, 0x0000, 0xffff)); // DMA2CNT_L
    var t18 := Install(t17, 0x0400_00d2, Entry(0x0d2, 0, Some(DmaControl(2)), 0xffff, 0xffff)); // DMA2CNT_H
    var t19 := Install(t18, 0x0400_00d4, Entry(0x0d4, 0, None, 0x0000, 0xffff)); // DMA3SAD_L
    var t20 := Install(t19, 0x0400_00d6, Entry(0x0d6, 0, None, 0x0000, 0xffff)); // DMA3SAD_H
    var t21 := Install(t20, 0x0400_00d8, Entry(0x0d8, 0, None, 0x0000, 0xffff)); // DMA3DAD_L
    var t22 := Install(t21, 0x0400_00da, Entry(0x0da, 0, None, 0x0000, 0xffff)); // DMA3DAD_H
    var t23 := Install(t22, 0x0400_00dc, Entry(0x0dc, 0, None, 0x0000, 0xffff)); // DMA3CNT_L
    var t24 := Install(t23, 0x0400_00de, Entry(0x0de, 0, Some(DmaControl(3)), 0xffff, 0xffff)); // DMA3CNT_H
    t24
  }

  /** The timer registers as `init` installs them (io.cpp lines 127-134). */
  function TimersRegisters(t: seq<Entry>): (t': seq<Entry>)
    requires Shaped(t)
    ensures Shaped(t')
  {
    var t1 := Install(t, 0x0400_0100, Entry(0x100, 0, Some(TimerControl(0, false)), 0xffff, 0xffff)); // TM0CNT_L
    var t2 := Install(t1, 0x0400_0102, Entry(0x102, 0, Some(TimerControl(0, true)), 0xffff, 0xffff)); // TM0CNT_H
    var t3 := Install(t2, 0x0400_0104, Entry(0x104, 0, Some(TimerControl(1, false)), 0xffff, 0xffff)); // TM1CNT_L
    var t4 := Install(t3, 0x0400_0106, Entry(0x106, 0, Some(TimerControl(1, true)), 0xffff, 0xffff)); // TM1CNT_H
    var t5 := Install(t4, 0x0400_0108, Entry(0x108, 0, Some(TimerControl(2, false)), 0xffff, 0xffff)); // TM2CNT_L
    var t6 := Install(t5, 0x0400_010a, Entry(0x10a, 0, Some(TimerControl(2, true)), 0xffff, 0xffff)); // TM2CNT_H
    var t7 := Install(t6, 0x0400_010c, Entry(0x10c, 0, Some(TimerControl(3, false)), 0xffff, 0xffff)); // TM3CNT_L
    var t8 := Install(t7, 0x0400_010e, Entry(0x10e, 0, Some(TimerControl(3, true)), 0xffff, 0xffff)); // TM3CNT_H
    t8
  }

  /** The serial and keypad registers as `init` installs them (io.cpp lines 135-150). */
  function SerialRegisters(t: seq<Entry>): (t': seq<Entry>)
    requires Shaped(t)
    ensures Shaped(t')
  {
    var t1 := Install(t, 0x0400_0120, Entry(0x120, 0, None, 0xffff, 0xffff)); // SIOMULTI0
    var t2 := Install(t1, 0x0400_0122, Entry(0x122, 0, None, 0xffff, 0xffff)); // SIOMULTI1
    var t3 := Install(t2, 0x0400_0124, Entry(0x124, 0, None, 0xffff, 0xffff)); // SIOMULTI2
    var t4 := Install(t3, 0x0400_0126, Entry(0x126, 0, None, 0xffff, 0xffff)); // SIOMULTI3
    var t5 := Install(t4, 0x0400_0128, Entry(0x128, 0, None, 0xffff, 0xffff)); // SIOCNT
    var t6 := Install(t5, 0x0400_012a, Entry(0x12a, 0, None, 0xffff, 0xffff)); // SIOMLT_SEND
    var t7 := Install(t6, 0x0400_0130, Entry(0x130, 0, None, 0x03ff, 0x0000)); // KEYINPUT
    var t8 := Install(t7, 0x0400_0132, Entry(0x132, 0, None, 0xc3ff, 0xc3ff)); // KEYCNT
    var t9 := Install(t8, 0x0400_0134, Entry(0x134, 0, None, 0xffff, 0xffff)); // RCNT
    var t10 := Install(t9, 0x0400_0136, Entry(0x136, 0, None, 0x0000, 0x0000)); // IR
    var t11 := Install(t10, 0x0400_0140, Entry(0x140, 0, None, 0xffff, 0xffff)); // JOYCNT
    var t12 := Install(t11, 0x0400_0150, Entry(0x150, 0, None, 0xffff, 0xffff)); // JOY_RECV_L
    var t13 := Install(t12, 0x0400_0152, Entry(0x152, 0, None, 0xffff, 0xffff)); // JOY_RECV_H
    var t14 := Install(t13, 0x0400_0154, Entry(0x154, 0, None, 0xffff, 0xffff)); // JOY_TRANS_L
    var t15 := Install(t14, 0x0400_0156, Entry(0x156, 0, None, 0xffff, 0xffff)); // JOY_TRANS_H
    var t16 := Install(t15, 0x0400_0158, Entry(0x158, 0, None, 0xffff, 0xffff)); // JOYSTAT
    t16
  }

  /** The interrupt, wait-state, power and memory-control registers as `init` installs them (io.cpp lines 151-158). */
  function SystemRegisters(t: seq<Entry>): (t': seq<Entry>)
    requires Shaped(t)
    ensures Shaped(t')
  {
    var t1 := Install(t, 0x0400_0200, Entry(0x200, 0, Some(InterruptFlags), 0xffff, 0xffff)); // IE
    var t2 := Install(t1, 0x0400_0202, Entry(0x200, 0, None, 0xffff, 0xffff)); // IF
    var t3 := Install(t2, 0x0400_0204, Entry(0x204, 0, None, 0xffff, 0xffff)); // WAITCNT
    var t4 := Install(t3, 0x0400_0208, Entry(0x208, 0, None, 0xffff, 0xffff)); // IME
    var t5 := Install(t4, 0x0400_0300, Entry(0x300, 0, None, 0xff00, 0xffff)); // POSTFLG
    var t6 := Install(t5, 0x0400_0410, Entry(0x410, 0, None, 0xffff, 0xffff)); // UNKBUG
    var t7 := Install(t6, 0x0400_0800, Entry(0x800, 0, None, 0xffff, 0xffff)); // MEMCTL_L
    var t8 := Install(t7, 0x0400_0802, Entry(0x802, 0, None, 0xffff, 0xffff)); // MEMCTL_H
    t8
  }

  lemma BackgroundsFrame(t: seq<Entry>, k: nat)
    requires Shaped(t) && k < SLOT_COUNT && !(0x000 <= k < 0x010)
    ensures BackgroundsRegisters(t)[k] == t[k]
  {
  }

  lemma EffectsFrame(t: seq<Entry>, k: nat)
    requires Shaped(t) && k < SLOT_COUNT && !(0x010 <= k < 0x030)
    ensures EffectsRegisters(t)[k] == t[k]
  {
    // the slots of the group, evaluated first
    assert SlotOf(0x0400_0020) == 0x010 && SlotOf(0x0400_0022) == 0x011 && SlotOf(0x0400_0024) == 0x012;
    assert SlotOf(0x0400_0026) == 0x013 && SlotOf(0x0400_0028) == 0x014 && SlotOf(0x0400_002a) == 0x015;
    assert SlotOf(0x0400_002c) == 0x016 && SlotOf(0x0400_002e) == 0x017 && SlotOf(0x0400_0030) == 0x018;
    assert SlotOf(0x0400_0032) == 0x019 && SlotOf(0x0400_0034) == 0x01a && SlotOf(0x0400_0036) == 0x01b;
    assert SlotOf(0x0400_0038) == 0x01c && SlotOf(0x0400_003a) == 0x01d && SlotOf(0x0400_003c) == 0x01e;
    assert SlotOf(0x0400_003e) == 0x01f && SlotOf(0x0400_0040) == 0x020 && SlotOf(0x0400_0042) == 0x021;
    assert SlotOf(0x0400_0044) == 0x022 && SlotOf(0x0400_0046) == 0x023 && SlotOf(0x0400_0048) == 0x024;
    assert SlotOf(0x0400_004a) == 0x025 && SlotOf(0x0400_004c) == 0x026 && SlotOf(0x0400_0050) == 0x028;
    assert SlotOf(0x0400_0052) == 0x029 && SlotOf(0x0400_0054) == 0x02a;
  }

  lemma SoundFrame(t: seq<Entry>, k: nat)
    requires Shaped(t) && k < SLOT_COUNT && !(0x030 <= k < 0x058)
    ensures SoundRegisters(t)[k] == t[k]
  {
    // the slots of the group, evaluated first
    assert SlotOf(0x0400_0060) == 0x030 && SlotOf(0x0400_0062) == 0x031 && SlotOf(0x0400_0064) == 0x032;
    assert SlotOf(0x0400_0068) == 0x034 && SlotOf(0x0400_006c) == 0x036 && SlotOf(0x0400_0070) == 0x038;
    assert SlotOf(0x0400_0072) == 0x039 && SlotOf(0x0400_0074) == 0x03a && SlotOf(0x0400_0078) == 0x03c;
    assert SlotOf(0x0400_007c) == 0x03e && SlotOf(0x0400_0080) == 0x040 && SlotOf(0x0400_0082) == 0x041;
    assert SlotOf(0x0400_0084) == 0x042 && SlotOf(0x0400_0088) == 0x044 && SlotOf(0x0400_0090) == 0x048;
    assert SlotOf(0x0400_0092) == 0x049 && SlotOf(0x0400_0094) == 0x04a && SlotOf(0x0400_0096) == 0x04b;
    assert SlotOf(0x0400_0098) == 0x04c && SlotOf(0x0400_009a) == 0x04d && SlotOf(0x0400_009c) == 0x04e;
    assert SlotOf(0x0400_009e) == 0x04f && SlotOf(0x0400_00a0) == 0x050 && SlotOf(0x0400_00a2) == 0x051;
    assert SlotOf(0x0400_00a4) == 0x052 && SlotOf(0x0400_00a6) == 0x053;
  }

  lemma DmaFrame(t: seq<Entry>, k: nat)
    requires Shaped(t) && k < SLOT_COUNT && !(0x058 <= k < 0x080)
    ensures DmaRegisters(t)[k] == t[k]
  {
    // the slots of the group, evaluated first
    assert SlotOf(0x0400_00b0) == 0x058 && SlotOf(0x0400_00b2) == 0x059 && SlotOf(0x0400_00b4) == 0x05a;
    assert SlotOf(0x0400_00b6) == 0x05b && SlotOf(0x0400_00b8) == 0x05c && SlotOf(0x0400_00ba) == 0x05d;
    assert SlotOf(0x0400_00bc) == 0x05e && SlotOf(0x0400_00be) == 0x05f && SlotOf(0x0400_00c0) == 0x060;
    assert SlotOf(0x0400_00c2) == 0x061 && SlotOf(0x0400_00c4) == 0x062 && SlotOf(0x0400_00c6) == 0x063;
    assert SlotOf(0x0400_00c8) == 0x064 && SlotOf(0x0400_00ca) == 0x065 && SlotOf(0x0400_00cc) == 0x066;
    assert SlotOf(0x0400_00ce) == 0x067 && SlotOf(0x0400_00d0) == 0x068 && SlotOf(0x0400_00d2) == 0x069;
    assert SlotOf(0x0400_00d4) == 0x06a && SlotOf(0x0400_00d6) == 0x06b && SlotOf(0x0400_00d8) == 0x06c;
    assert SlotOf(0x0400_00da) == 0x06d && SlotOf(0x0400_00dc) == 0x06e && SlotOf(0x0400_00de) == 0x06f;
  }

  lemma TimersFrame(t: seq<Entry>, k: nat)
    requires Shaped(t) && k < SLOT_COUNT && !(0x080 <= k < 0x090)
    ensures TimersRegisters(t)[k] == t[k]
  {
    // the slots of the group, evaluated first
    assert SlotOf(0x0400_0100) == 0x080 && SlotOf(0x0400_0102) == 0x081 && SlotOf(0x0400_0104) == 0x082;
    assert SlotOf(0x0400_0106) == 0x083 && SlotOf(0x0400_0108) == 0x084 && SlotOf(0x0400_010a) == 0x085;
    assert SlotOf(0x0400_010c) == 0x086 && SlotOf(0x0400_010e) == 0x087;
  }

  lemma SerialFrame(t: seq<Entry>, k: nat)
    requires Shaped(t) && k < SLOT_COUNT && !(0x090 <= k < 0x100)
    ensures SerialRegisters(t)[k] == t[k]
  {
    // the slots of the group, evaluated first
    assert SlotOf(0x0400_0120) == 0x090 && SlotOf(0x0400_0122) == 0x091 && SlotOf(0x0400_0124) == 0x092;
    assert SlotOf(0x0400_0126) == 0x093 && SlotOf(0x0400_0128) == 0x094 && SlotOf(0x0400_012a) == 0x095;
    assert SlotOf(0x0400_0130) == 0x098 && SlotOf(0x0400_0132) == 0x099 && SlotOf(0x0400_0134) == 0x09a;
    assert SlotOf(0x0400_0136) == 0x09b && SlotOf(0x0400_0140) == 0x0a0 && SlotOf(0x0400_0150) == 0x0a8;
    assert SlotOf(0x0400_0152) == 0x0a9 && SlotOf(0x0400_0154) == 0x0aa && SlotOf(0x0400_0156) == 0x0ab;
    assert SlotOf(0x0400_0158) == 0x0ac;
  }

  lemma SystemFrame(t: seq<Entry>, k: nat)
    requires Shaped(t) && k < SLOT_COUNT && !(0x100 <= k < 0x402)
    ensures SystemRegisters(t)[k] == t[k]
  {
  }

  /** The table after the blanking loop. */
  function BlankTable(): (t: seq<Entry>)
    ensures Shaped(t)
  {
    seq(SLOT_COUNT, _ => BLANK)
  }

  /** The table `init` leaves. */
  function InitialTable(): (t: seq<Entry>)
    ensures Shaped(t)
  {
    SystemRegisters(SerialRegisters(TimersRegisters(DmaRegisters(SoundRegisters(EffectsRegisters(BackgroundsRegisters(BlankTable())))))))
  }

  /** A slot of backgrounds register keeps the entry that group gave it. */
  lemma FromBackgrounds(k: nat)
    requires 0x000 <= k < 0x010
    ensures InitialTable()[k] == BackgroundsRegisters(BlankTable())[k]
  {
    EffectsFrame(BackgroundsRegisters(BlankTable()), k);
    SoundFrame(EffectsRegisters(BackgroundsRegisters(BlankTable())), k);
    DmaFrame(SoundRegisters(EffectsRegisters(BackgroundsRegisters(BlankTable()))), k);
    TimersFrame(DmaRegisters(SoundRegisters(EffectsRegisters(BackgroundsRegisters(BlankTable())))), k);
    SerialFrame(TimersRegisters(DmaRegisters(SoundRegisters(EffectsRegisters(BackgroundsRegisters(BlankTable()))))), k);
    SystemFrame(SerialRegisters(TimersRegisters(DmaRegisters(SoundRegisters(EffectsRegisters(BackgroundsRegisters(BlankTable())))))), k);
  }

  /** A slot of effects register keeps the entry that group gave it. */
  lemma FromEffects(k: nat)
    requires 0x010 <= k < 0x030
    ensures InitialTable()[k] == EffectsRegisters(BackgroundsRegisters(BlankTable()))[k]
  {
    SoundFrame(EffectsRegisters(BackgroundsRegisters(BlankTable())), k);
    DmaFrame(SoundRegisters(EffectsRegisters(BackgroundsRegisters(BlankTable()))), k);
    TimersFrame(DmaRegisters(SoundRegisters(EffectsRegisters(BackgroundsRegisters(BlankTable())))), k);
    SerialFrame(TimersRegisters(DmaRegisters(SoundRegisters(EffectsRegisters(BackgroundsRegisters(BlankTable()))))), k);
    SystemFrame(SerialRegisters(TimersRegisters(DmaRegisters(SoundRegisters(EffectsRegisters(BackgroundsRegisters(BlankTable())))))), k);
  }

  /** A slot of sound register keeps the entry that group gave it. */
  lemma FromSound(k: nat)
    requires 0x030 <= k < 0x058
    ensures InitialTable()[k] == SoundRegisters(EffectsRegisters(BackgroundsRegisters(BlankTable())))[k]
  {
    DmaFrame(SoundRegisters(EffectsRegisters(BackgroundsRegisters(BlankTable()))), k);
    TimersFrame(DmaRegisters(SoundRegisters(EffectsRegisters(BackgroundsRegisters(BlankTable())))), k);
    SerialFrame(TimersRegisters(DmaRegisters(SoundRegisters(EffectsRegisters(BackgroundsRegisters(BlankTable()))))), k);
    SystemFrame(SerialRegisters(TimersRegisters(DmaRegisters(SoundRegisters(EffectsRegisters(BackgroundsRegisters(BlankTable())))))), k);
  }

  /** A slot of dma register keeps the entry that group gave it. */
  lemma FromDma(k: nat)
    requires 0x058 <= k < 0x080
    ensures InitialTable()[k] == DmaRegisters(SoundRegisters(EffectsRegisters(BackgroundsRegisters(BlankTable()))))[k]
  {
    TimersFrame(DmaRegisters(SoundRegisters(EffectsRegisters(BackgroundsRegisters(BlankTable())))), k);
    SerialFrame(TimersRegisters(DmaRegisters(SoundRegisters(EffectsRegisters(BackgroundsRegisters(BlankTable()))))), k);
    SystemFrame(SerialRegisters(TimersRegisters(DmaRegisters(SoundRegisters(EffectsRegisters(BackgroundsRegisters(BlankTable())))))), k);
  }

  /** A slot of timers register keeps the entry that group gave it. */
  lemma FromTimers(k: nat)
    requires 0x080 <= k < 0x090
    ensures InitialTable()[k] == TimersRegisters(DmaRegisters(SoundRegisters(EffectsRegisters(BackgroundsRegisters(BlankTable())))))[k]
  {
    SerialFrame(TimersRegisters(DmaRegisters(SoundRegisters(EffectsRegisters(BackgroundsRegisters(BlankTable()))))), k);
    SystemFrame(SerialRegisters(TimersRegisters(DmaRegisters(SoundRegisters(EffectsRegisters(BackgroundsRegisters(BlankTable())))))), k);
  }

  /** A slot of serial register keeps the entry that group gave it. */
  lemma FromSerial(k: nat)
    requires 0x090 <= k < 0x100
    ensures InitialTable()[k] == SerialRegisters(TimersRegisters(DmaRegisters(SoundRegisters(EffectsRegisters(BackgroundsRegisters(BlankTable()))))))[k]
  {
    SystemFrame(SerialRegisters(TimersRegisters(DmaRegisters(SoundRegisters(EffectsRegisters(BackgroundsRegisters(BlankTable())))))), k);
  }

  /** A slot of system register keeps the entry that group gave it. */
  lemma FromSystem(k: nat)
    requires 0x100 <= k < 0x402
    ensures InitialTable()[k] == SystemRegisters(SerialRegisters(TimersRegisters(DmaRegisters(SoundRegisters(EffectsRegisters(BackgroundsRegisters(BlankTable())))))))[k]
  {
  }

  // What `init` installs. Each group's facts hold whatever table the group
  // starts from; the `Initial` lemmas carry them to the finished table.

  /** All values 0. */
  predicate ValuesZero(t: seq<Entry>) {
    forall k :: 0 <= k < |t| ==> t[k].value == 0
  }

  lemma BackgroundsKeepZero(t: seq<Entry>)
    requires Shaped(t) && ValuesZero(t)
    ensures ValuesZero(BackgroundsRegisters(t))
  {
    forall k | 0 <= k < SLOT_COUNT
      ensures BackgroundsRegisters(t)[k].value == 0
    {
    }
  }

  lemma EffectsKeepZero(t: seq<Entry>)
    requires Shaped(t) && ValuesZero(t)
    ensures ValuesZero(EffectsRegisters(t))
  {
    // the slots of the group, evaluated first
    assert SlotOf(0x0400_0020) == 0x010 && SlotOf(0x0400_0022) == 0x011 && SlotOf(0x0400_0024) == 0x012;
    assert SlotOf(0x0400_0026) == 0x013 && SlotOf(0x0400_0028) == 0x014 && SlotOf(0x0400_002a) == 0x015;
    assert SlotOf(0x0400_002c) == 0x016 && SlotOf(0x0400_002e) == 0x017 && SlotOf(0x0400_0030) == 0x018;
    assert SlotOf(0x0400_0032) == 0x019 && SlotOf(0x0400_0034) == 0x01a && SlotOf(0x0400_0036) == 0x01b;
    assert SlotOf(0x0400_0038) == 0x01c && SlotOf(0x0400_003a) == 0x01d && SlotOf(0x0400_003c) == 0x01e;
    assert SlotOf(0x0400_003e) == 0x01f && SlotOf(0x0400_0040) == 0x020 && SlotOf(0x0400_0042) == 0x021;
    assert SlotOf(0x0400_0044) == 0x022 && SlotOf(0x0400_0046) == 0x023 && SlotOf(0x0400_0048) == 0x024;
    assert SlotOf(0x0400_004a) == 0x025 && SlotOf(0x0400_004c) == 0x026 && SlotOf(0x0400_0050) == 0x028;
    assert SlotOf(0x0400_0052) == 0x029 && SlotOf(0x0400_0054) == 0x02a;
    forall k | 0 <= k < SLOT_COUNT
      ensures EffectsRegisters(t)[k].value == 0
    {
    }
  }

  lemma SoundKeepZero(t: seq<Entry>)
    requires Shaped(t) && ValuesZero(t)
    ensures ValuesZero(SoundRegisters(t))
  {
    // the slots of the group, evaluated first
    assert SlotOf(0x0400_0060) == 0x030 && SlotOf(0x0400_0062) == 0x031 && SlotOf(0x0400_0064) == 0x032;
    assert SlotOf(0x0400_0068) == 0x034 && SlotOf(0x0400_006c) == 0x036 && SlotOf(0x0400_0070) == 0x038;
    assert SlotOf(0x0400_0072) == 0x039 && SlotOf(0x0400_0074) == 0x03a && SlotOf(0x0400_0078) == 0x03c;
    assert SlotOf(0x0400_007c) == 0x03e && SlotOf(0x0400_0080) == 0x040 && SlotOf(0x0400_0082) == 0x041;
    assert SlotOf(0x0400_0084) == 0x042 && SlotOf(0x0400_0088) == 0x044 && SlotOf(0x0400_0090) == 0x048;
    assert SlotOf(0x0400_0092) == 0x049 && SlotOf(0x0400_0094) == 0x04a && SlotOf(0x0400_0096) == 0x04b;
    assert SlotOf(0x0400_0098) == 0x04c && SlotOf(0x0400_009a) == 0x04d && SlotOf(0x0400_009c) == 0x04e;
    assert SlotOf(0x0400_009e) == 0x04f && SlotOf(0x0400_00a0) == 0x050 && SlotOf(0x0400_00a2) == 0x051;
    assert SlotOf(0x0400_00a4) == 0x052 && SlotOf(0x0400_00a6) == 0x053;
    forall k | 0 <= k < SLOT_COUNT
      ensures SoundRegisters(t)[k].value == 0
    {
    }
  }

  lemma DmaKeepZero(t: seq<Entry>)
    requires Shaped(t) && ValuesZero(t)
    ensures ValuesZero(DmaRegisters(t))
  {
    // the slots of the group, evaluated first
    assert SlotOf(0x0400_00b0) == 0x058 && SlotOf(0x0400_00b2) == 0x059 && SlotOf(0x0400_00b4) == 0x05a;
    assert SlotOf(0x0400_00b6) == 0x05b && SlotOf(0x0400_00b8) == 0x05c && SlotOf(0x0400_00ba) == 0x05d;
    assert SlotOf(0x0400_00bc) == 0x05e && SlotOf(0x0400_00be) == 0x05f && SlotOf(0x0400_00c0) == 0x060;
    assert SlotOf(0x0400_00c2) == 0x061 && SlotOf(0x0400_00c4) == 0x062 && SlotOf(0x0400_00c6) == 0x063;
    assert SlotOf(0x0400_00c8) == 0x064 && SlotOf(0x0400_00ca) == 0x065 && SlotOf(0x0400_00cc) == 0x066;
    assert SlotOf(0x0400_00ce) == 0x067 && SlotOf(0x0400_00d0) == 0x068 && SlotOf(0x0400_00d2) == 0x069;
    assert SlotOf(0x0400_00d4) == 0x06a && SlotOf(0x0400_00d6) == 0x06b && SlotOf(0x0400_00d8) == 0x06c;
    assert SlotOf(0x0400_00da) == 0x06d && SlotOf(0x0400_00dc) == 0x06e && SlotOf(0x0400_00de) == 0x06f;
    forall k | 0 <= k < SLOT_COUNT
      ensures DmaRegisters(t)[k].value == 0
    {
    }
  }

  lemma TimersKeepZero(t: seq<Entry>)
    requires Shaped(t) && ValuesZero(t)
    ensures ValuesZero(TimersRegisters(t))
  {
    // the slots of the group, evaluated first
    assert SlotOf(0x0400_0100) == 0x080 && SlotOf(0x0400_0102) == 0x081 && SlotOf(0x0400_0104) == 0x082;
    assert SlotOf(0x0400_0106) == 0x083 && SlotOf(0x0400_0108) == 0x084 && SlotOf(0x0400_010a) == 0x085;
    assert SlotOf(0x0400_010c) == 0x086 && SlotOf(0x0400_010e) == 0x087;
    forall k | 0 <= k < SLOT_COUNT
      ensures TimersRegisters(t)[k].value == 0
    {
    }
  }

  lemma SerialKeepZero(t: seq<Entry>)
    requires Shaped(t) && ValuesZero(t)
    ensures ValuesZero(SerialRegisters(t))
  {
    // the slots of the group, evaluated first
    assert SlotOf(0x0400_0120) == 0x090 && SlotOf(0x0400_0122) == 0x091 && SlotOf(0x0400_0124) == 0x092;
    assert SlotOf(0x0400_0126) == 0x093 && SlotOf(0x0400_0128) == 0x094 && SlotOf(0x0400_012a) == 0x095;
    assert SlotOf(0x0400_0130) == 0x098 && SlotOf(0x0400_0132) == 0x099 && SlotOf(0x0400_0134) == 0x09a;
    assert SlotOf(0x0400_0136) == 0x09b && SlotOf(0x0400_0140) == 0x0a0 && SlotOf(0x0400_0150) == 0x0a8;
    assert SlotOf(0x0400_0152) == 0x0a9 && SlotOf(0x0400_0154) == 0x0aa && SlotOf(0x0400_0156) == 0x0ab;
    assert SlotOf(0x0400_0158) == 0x0ac;
    forall k | 0 <= k < SLOT_COUNT
      ensures SerialRegisters(t)[k].value == 0
    {
    }
  }

  lemma SystemKeepZero(t: seq<Entry>)
    requires Shaped(t) && ValuesZero(t)
    ensures ValuesZero(SystemRegisters(t))
  {
    forall k | 0 <= k < SLOT_COUNT
      ensures SystemRegisters(t)[k].value == 0
    {
    }
  }

  /** DISPCNT has the display handler; VCOUNT ignores writes; the scroll registers BG0HOFS-BG3VOFS (slots 8-15) ignore reads. */
  lemma BackgroundsFacts(t: seq<Entry>)
    requires Shaped(t)
    ensures BackgroundsRegisters(t)[SlotOf(0x0400_0000)] == Entry(DISPCNT, 0, Some(Dispcnt), 0xffff, 0xffff)
    ensures BackgroundsRegisters(t)[SlotOf(0x0400_0006)] == Entry(VCOUNT, 0, None, 0xffff, 0)
    ensures forall k :: 8 <= k < 16 ==> BackgroundsRegisters(t)[k].readMask == 0 && BackgroundsRegisters(t)[k].writeMask == 0xffff
  {
  }

  /** DMAnCNT_H carries the handler of channel n. */
  lemma DmaFacts(t: seq<Entry>)
    requires Shaped(t)
    ensures DmaRegisters(t)[SlotOf(0x0400_00ba)].writeCallback == Some(DmaControl(0))
    ensures DmaRegisters(t)[SlotOf(0x0400_00c6)].writeCallback == Some(DmaControl(1))
    ensures DmaRegisters(t)[SlotOf(0x0400_00d2)].writeCallback == Some(DmaControl(2))
    ensures DmaRegisters(t)[SlotOf(0x0400_00de)].writeCallback == Some(DmaControl(3))
  {
  }

  /** TMnCNT_L and TMnCNT_H (slots 0x80-0x87) carry the handler of timer n, low or high half. */
  lemma TimersFacts(t: seq<Entry>)
    requires Shaped(t)
    ensures forall k :: 0x80 <= k < 0x88 ==> TimersRegisters(t)[k].writeCallback == Some(TimerControl((k - 0x80) / 2, k % 2 == 1))
  {
  }

  /** KEYINPUT reads ten key bits and ignores writes. */
  lemma SerialFacts(t: seq<Entry>)
    requires Shaped(t)
    ensures SerialRegisters(t)[SlotOf(0x0400_0130)] == Entry(KEYINPUT, 0, None, 0x03ff, 0)
  {
  }

  /** IE has the interrupt handler; IF, at the next slot, has none. */
  lemma SystemFacts(t: seq<Entry>)
    requires Shaped(t)
    ensures SystemRegisters(t)[SlotOf(0x0400_0200)] == Entry(IE, 0, Some(InterruptFlags), 0xffff, 0xffff)
    ensures SystemRegisters(t)[SlotOf(0x0400_0202)] == Entry(IF, 0, None, 0xffff, 0xffff)
  {
  }

  /** After `init` every register holds 0. */
  lemma InitialValuesZero()
    ensures ValuesZero(InitialTable())
  {
    GroupsKeepZero(BlankTable());
  }

  /** The register groups keep every value 0, whatever table they start from. */
  lemma GroupsKeepZero(t: seq<Entry>)
    requires Shaped(t) && ValuesZero(t)
    ensures ValuesZero(SystemRegisters(SerialRegisters(TimersRegisters(DmaRegisters(SoundRegisters(EffectsRegisters(BackgroundsRegisters(t))))))))
  {
    BackgroundsKeepZero(t);
    EffectsKeepZero(BackgroundsRegisters(t));
    SoundKeepZero(EffectsRegisters(BackgroundsRegisters(t)));
    DmaKeepZero(SoundRegisters(EffectsRegisters(BackgroundsRegisters(t))));
    TimersKeepZero(DmaRegisters(SoundRegisters(EffectsRegisters(BackgroundsRegisters(t)))));
    SerialKeepZero(TimersRegisters(DmaRegisters(SoundRegisters(EffectsRegisters(BackgroundsRegisters(t))))));
    SystemKeepZero(SerialRegisters(TimersRegisters(DmaRegisters(SoundRegisters(EffectsRegisters(BackgroundsRegisters(t)))))));
  }

  /** After `init`, VCOUNT and KEYINPUT ignore writes and the scroll registers ignore reads. */
  lemma InitialAccess()
    ensures InitialTable()[SlotOf(0x0400_0006)] == Entry(VCOUNT, 0, None, 0xffff, 0)
    ensures InitialTable()[SlotOf(0x0400_0130)] == Entry(KEYINPUT, 0, None, 0x03ff, 0)
    ensures forall k :: 8 <= k < 16 ==> InitialTable()[k].readMask == 0 && InitialTable()[k].writeMask == 0xffff
  {
    assert SlotOf(0x0400_0006) == 3 && SlotOf(0x0400_0130) == 0x98;
    BackgroundsFacts(BlankTable());
    FromBackgrounds(3);
    forall k | 8 <= k < 16
      ensures InitialTable()[k] == BackgroundsRegisters(BlankTable())[k]
    {
      FromBackgrounds(k);
    }
    SerialFacts(TimersRegisters(DmaRegisters(SoundRegisters(EffectsRegisters(BackgroundsRegisters(BlankTable()))))));
    FromSerial(0x98);
  }

  /** After `init`, DISPCNT and IE carry their handlers, and IF none. */
  lemma InitialHandlers()
    ensures InitialTable()[SlotOf(0x0400_0000)].writeCallback == Some(Dispcnt)
    ensures InitialTable()[SlotOf(0x0400_0200)].writeCallback == Some(InterruptFlags)
    ensures InitialTable()[SlotOf(0x0400_0202)].writeCallback == None
  {
    assert SlotOf(0x0400_0000) == 0 && SlotOf(0x0400_0200) == 0x100 && SlotOf(0x0400_0202) == 0x101;
    BackgroundsFacts(BlankTable());
    FromBackgrounds(0);
    SystemFacts(SerialRegisters(TimersRegisters(DmaRegisters(SoundRegisters(EffectsRegisters(BackgroundsRegisters(BlankTable())))))));
    FromSystem(0x100);
    FromSystem(0x101);
  }

  /** After `init`, DMAnCNT_H carries the handler of channel n. */
  lemma InitialDmaHandlers()
    ensures InitialTable()[SlotOf(0x0400_00ba)].writeCallback == Some(DmaControl(0))
    ensures InitialTable()[SlotOf(0x0400_00c6)].writeCallback == Some(DmaControl(1))
    ensures InitialTable()[SlotOf(0x0400_00d2)].writeCallback == Some(DmaControl(2))
    ensures InitialTable()[SlotOf(0x0400_00de)].writeCallback == Some(DmaControl(3))
  {
    assert SlotOf(0x0400_00ba) == 0x5d && SlotOf(0x0400_00c6) == 0x63;
    assert SlotOf(0x0400_00d2) == 0x69 && SlotOf(0x0400_00de) == 0x6f;
    DmaFacts(SoundRegisters(EffectsRegisters(BackgroundsRegisters(BlankTable()))));
    FromDma(0x5d);
    FromDma(0x63);
    FromDma(0x69);
    FromDma(0x6f);
  }

  /** After `init`, TMnCNT_L and TMnCNT_H (slots 0x80-0x87) carry the handler of timer n. */
  lemma InitialTimerHandlers()
    ensures forall k :: 0x80 <= k < 0x88 ==> InitialTable()[k].writeCallback == Some(TimerControl((k - 0x80) / 2, k % 2 == 1))
  {
    TimersFacts(DmaRegisters(SoundRegisters(EffectsRegisters(BackgroundsRegisters(BlankTable())))));
    forall k | 0x80 <= k < 0x88
      ensures InitialTable()[k] == TimersRegisters(DmaRegisters(SoundRegisters(EffectsRegisters(BackgroundsRegisters(BlankTable())))))[k]
    {
      FromTimers(k);
    }
  }

  // -------------------------------------------------------------- table

  /** The register table `io`. */
  class Io {
    const io: array<Entry>

    ghost predicate Valid() {
      io.Length == SLOT_COUNT
    }

    constructor ()
      ensures Valid()
    {
      io := new Entry[SLOT_COUNT](_ => BLANK);
    }

    /** `initRegister`. */
    method InitRegister(address: bv32, registerNumber: nat, initialValue: bv16,
                        writeCallback: Option<Callback>, readMask: bv16, writeMask: bv16)
      requires Valid() && InitAddress(address)
      modifies io
      ensures io[..] == Install(old(io[..]), address, Entry(registerNumber, initialValue, writeCallback, readMask, writeMask))
    {
      ConvertsToSlotAddress(address);
      io[SlotOf(address)] := Entry(registerNumber, initialValue, writeCallback, readMask, writeMask);
    }

    /** `read16`. */
    method Read16(address: bv32) returns (value: bv16)
      requires Valid()
      ensures value == Read16Spec(io[..], address)
    {
      var slot := ConvertAddress(Half(address));
      if slot == UINT32_MAX {
        return 0;
      }
      value := io[Index(slot)].value & io[Index(slot)].readMask;
    }

    /** `read8`. */
    method Read8(address: bv32) returns (value: bv8)
      requires Valid()
      ensures value == Read8Spec(io[..], address)
    {
      var h := Read16(address);
      if address & 1 != 0 {
        value := Hi8(h);
      } else {
        value := Lo8(h);
      }
    }

    /** `read32`. */
    method Read32(address: bv32) returns (value: bv32)
      requires Valid()
      ensures value == Read32Spec(io[..], address)
    {
      var low := Read16(Word(address));
      var high := Read16(Word(address) | 2);
      value := Join16(low, high);
      Read32Def(io[..], address);
    }

    /** `write16`. */
    method Write16(address: bv32, v: bv16) returns (calls: seq<Call>)
      requires Valid()
      modifies io
      ensures Write16Spec(old(io[..]), address, v) == Written(io[..], calls)
    {
      var slot := ConvertAddress(Half(address));
      if slot == UINT32_MAX {
        return [];
      }
      var e := io[Index(slot)];
      io[Index(slot)] := e.(value := Merge(e.value, v, e.writeMask));
      calls := if e.writeCallback.Some? then [Call(e.writeCallback.value, v)] else [];
    }

    /** `write8`. */
    method Write8(address: bv32, v: bv8) returns (calls: seq<Call>)
      requires Valid()
      modifies io
      ensures Write8Spec(old(io[..]), address, v) == Written(io[..], calls)
    {
      var h := Read16(address);
      if address & 1 != 0 {
        calls := Write16(address, Join8(Lo8(h), v));
      } else {
        calls := Write16(address, Join8(v, Hi8(h)));
      }
    }

    /** `write32`. */
    method Write32(address: bv32, v: bv32) returns (calls: seq<Call>)
      requires Valid()
      modifies io
      ensures Write32Spec(old(io[..]), address, v) == Written(io[..], calls)
    {
      ghost var t := io[..];
      var low := Write16(Word(address), Lo16(v));
      var high := Write16(Word(address) | 2, Hi16(v));
      calls := low + high;
      Write32Def(t, address, v);
    }

    /** `set`. */
    method Set(index: nat, v: bv16)
      requires Valid() && InTable(index)
      modifies io
      ensures io[..] == SetSpec(old(io[..]), index, v)
    {
      io[index / 2] := io[index / 2].(value := v);
    }

    /** `get`. */
    method Get(index: nat) returns (v: bv16)
      requires Valid() && InTable(index)
      ensures v == GetSpec(io[..], index)
    {
      v := io[index / 2].value;
    }

    /** `set32`, as written (`corrected` false) or with the high half at `index + 2`. */
    method Set32(index: nat, v: bv32, corrected: bool)
      requires Valid() && InTable(if corrected then index + 2 else index + 1)
      modifies io
      ensures io[..] == Set32Spec(old(io[..]), index, v, corrected)
    {
      Set(index, Lo16(v));
      Set(if corrected then index + 2 else index + 1, Hi16(v));
    }

    /** `get32`, as written or corrected. */
    method Get32(index: nat, corrected: bool) returns (v: bv32)
      requires Valid() && InTable(if corrected then index + 2 else index + 1)
      ensures v == Get32Spec(io[..], index, corrected)
    {
      var low := Get(index);
      var high := Get(if corrected then index + 2 else index + 1);
      v := Join16(low, high);
    }

    /** `init`: every slot blanked, then the registers of the GBA installed. */
    method Init()
      requires Valid()
      modifies io
      ensures io[..] == InitialTable()
    {
      var address: bv32 := 0x0400_0000;
      while address < 0x0400_0804
        invariant 0x0400_0000 <= address <= 0x0400_0804 && address & 1 == 0
        invariant forall a :: InitAddress(a) && a < address ==> io[SlotOf(a)] == BLANK
        decreases 0x0400_0804 - address
      {
        BlankStep(io[..], address);
        InitRegister(address, 0, 0, None, 0, 0);
        address := address + 2;
      }
      AllBlank(io[..]);
      InitBackgrounds();
      InitEffects();
      InitSound();
      InitDma();
      InitTimers();
      InitSerial();
      InitSystem();
    }

    /** `init`, the display control, background control and scroll registers (lines 35-50). */
    method InitBackgrounds()
      requires Valid()
      modifies io
      ensures io[..] == BackgroundsRegisters(old(io[..]))
    {
      InitRegister(0x0400_0000, 0x000, 0x0000, Some(Dispcnt), 0xffff, 0xffff);
      InitRegister(0x0400_0002, 0x002, 0x0000, None, 0xffff, 0xffff);
      InitRegister(0x0400_0004, 0x004, 0x0000, None, 0xffff, 0xffff);
      InitRegister(0x0400_0006, 0x006, 0x0000, None, 0xffff, 0x0000);
      InitRegister(0x0400_0008, 0x008, 0x0000, None, 0xffff, 0xffff);
      InitRegister(0x0400_000a, 0x00a, 0x0000, None, 0xffff, 0xffff);
      InitRegister(0x0400_000c, 0x00c, 0x0000, None, 0xffff, 0xffff);
      InitRegister(0x0400_000e, 0x00e, 0x0000, None, 0xffff, 0xffff);
      InitRegister(0x0400_0010, 0x010, 0x0000, None, 0x0000, 0xffff);
      InitRegister(0x0400_0012, 0x012, 0x0000, None, 0x0000, 0xffff);
      InitRegister(0x0400_0014, 0x014, 0x0000, None, 0x0000, 0xffff);
      InitRegister(0x0400_0016, 0x016, 0x0000, None, 0x0000, 0xffff);
      InitRegister(0x0400_0018, 0x018, 0x0000, None, 0x0000, 0xffff);
      InitRegister(0x0400_001a, 0x01a, 0x0000, None, 0x0000, 0xffff);
      InitRegister(0x0400_001c, 0x01c, 0x0000, None, 0x0000, 0xffff);
      InitRegister(0x0400_001e, 0x01e, 0x0000, None, 0x0000, 0xffff);
    }

    /** `init`, the affine, window, mosaic and blending registers (lines 51-76). */
    method InitEffects()
      requires Valid()
      modifies io
      ensures io[..] == EffectsRegisters(old(io[..]))
    {
      InitRegister(0x0400_0020, 0x020, 0x0000, None, 0x0000, 0xffff);
      InitRegister(0x0400_0022, 0x022, 0x0000, None, 0x0000, 0xffff);
      InitRegister(0x0400_0024, 0x024, 0x0000, None, 0x0000, 0xffff);
      InitRegister(0x0400_0026, 0x036, 0x0000, None, 0x0000, 0xffff);
      InitRegister(0x0400_0028, 0x028, 0x0000, None, 0x0000, 0xffff);
      InitRegister(0x0400_002a, 0x02a, 0x0000, None, 0x0000, 0xffff);
      InitRegister(0x0400_002c, 0x02c, 0x0000, None, 0x0000, 0xffff);
      InitRegister(0x0400_002e, 0x02e, 0x0000, None, 0x0000, 0xffff);
      InitRegister(0x0400_0030, 0x030, 0x0000, None, 0x0000, 0xffff);
      InitRegister(0x0400_0032, 0x032, 0x0000, None, 0x0000, 0xffff);
      InitRegister(0x0400_0034, 0x034, 0x0000, None, 0x0000, 0xffff);
      InitRegister(0x0400_0036, 0x036, 0x0000, None, 0x0000, 0xffff);
      InitRegister(0x0400_0038, 0x038, 0x0000, None, 0x0000, 0xffff);
      InitRegister(0x0400_003a, 0x03a, 0x0000, None, 0x0000, 0xffff);
      InitRegister(0x0400_003c, 0x03c, 0x0000, None, 0x0000, 0xffff);
      InitRegister(0x0400_003e, 0x03e, 0x0000, None, 0x0000, 0xffff);
      InitRegister(0x0400_0040, 0x040, 0x0000, None, 0x0000, 0xffff);
      InitRegister(0x0400_0042, 0x042, 0x0000, None, 0x0000, 0xffff);
      InitRegister(0x0400_0044, 0x044, 0x0000, None, 0x0000, 0xffff);
      InitRegister(0x0400_0046, 0x046, 0x0000, None, 0x0000, 0xffff);
      InitRegister(0x0400_0048, 0x048, 0x0000, None, 0xffff, 0xffff);
      InitRegister(0x0400_004a, 0x04a, 0x0000, None, 0xffff, 0xffff);
      InitRegister(0x0400_004c, 0x04c, 0x0000, None, 0x0000, 0xffff);
      InitRegister(0x0400_0050, 0x050, 0x0000, None, 0xffff, 0xffff);
      InitRegister(0x0400_0052, 0x052, 0x0000, None, 0xffff, 0xffff);
      InitRegister(0x0400_0054, 0x054, 0x0000, None, 0x0000, 0xffff);
    }

    /** `init`, the sound registers (lines 77-102). */
    method InitSound()
      requires Valid()
      modifies io
      ensures io[..] == SoundRegisters(old(io[..]))
    {
      InitRegister(0x0400_0060, 0x060, 0x0000, None, 0xffff, 0xffff);
      InitRegister(0x0400_0062, 0x062, 0x0000, None, 0xffff, 0xffff);
      InitRegister(0x0400_0064, 0x064, 0x0000, None, 0xffff, 0xffff);
      InitRegister(0x0400_0068, 0x068, 0x0000, None, 0xffff, 0xffff);
      InitRegister(0x0400_006c, 0x06c, 0x0000, None, 0xffff, 0xffff);
      InitRegister(0x0400_0070, 0x070, 0x0000, None, 0xffff, 0xffff);
      InitRegister(0x0400_0072, 0x072, 0x0000, None, 0xffff, 0xffff);
      InitRegister(0x0400_0074, 0x074, 0x0000, None, 0xffff, 0xffff);
      InitRegister(0x0400_0078, 0x078, 0x0000, None, 0xffff, 0xffff);
      InitRegister(0x0400_007c, 0x07c, 0x0000, None, 0xffff, 0xffff);
      InitRegister(0x0400_0080, 0x080, 0x0000, None, 0xffff, 0xffff);
      InitRegister(0x0400_0082, 0x082, 0x0000, None, 0xffff, 0xffff);
      InitRegister(0x0400_0084, 0x084, 0x0000, None, 0xffff, 0xffff);
      InitRegister(0x0400_0088, 0x088, 0x0000, None, 0xffff, 0xffff);
      InitRegister(0x0400_0090, 0x090, 0x0000, None, 0xffff, 0xffff);
      InitRegister(0x0400_0092, 0x090, 0x0000, None, 0xffff, 0xffff);
      InitRegister(0x0400_0094, 0x090, 0x0000, None, 0xffff, 0xffff);
      InitRegister(0x0400_0096, 0x090, 0x0000, None, 0xffff, 0xffff);
      InitRegister(0x0400_0098, 0x090, 0x0000, None, 0xffff, 0xffff);
      InitRegister(0x0400_009a, 0x090, 0x0000, None, 0xffff, 0xffff);
      InitRegister(0x0400_009c, 0x090, 0x0000, None, 0xffff, 0xffff);
      InitRegister(0x0400_009e, 0x090, 0x0000, None, 0xffff, 0xffff);
      InitRegister(0x0400_00a0, 0x0a0, 0x0000, None, 0x0000, 0xffff);
      InitRegister(0x0400_00a2, 0x0a2, 0x0000, None, 0x0000, 0xffff);
      InitRegister(0x0400_00a4, 0x0a4, 0x0000, None, 0x0000, 0xffff);
      InitRegister(0x0400_00a6, 0x0a6, 0x0000, None, 0x0000, 0xffff);
    }

    /** `init`, the DMA registers (lines 103-126). */
    method InitDma()
      requires Valid()
      modifies io
      ensures io[..] == DmaRegisters(old(io[..]))
    {
      InitRegister(0x0400_00b0, 0x0b0, 0x0000, None, 0x0000, 0xffff);
      InitRegister(0x0400_00b2, 0x0b2, 0x0000, None, 0x0000, 0xffff);
      InitRegister(0x0400_00b4, 0x0b4, 0x0000, None, 0x0000, 0xffff);
      InitRegister(0x0400_00b6, 0x0b6, 0x0000, None, 0x0000, 0xffff);
      InitRegister(0x0400_00b8, 0x0b8, 0x0000, None, 0x0000, 0xffff);
      InitRegister(0x0400_00ba, 0x0ba, 0x0000, Some(DmaControl(0)), 0xffff, 0xffff);
      InitRegister(0x0400_00bc, 0x0bc, 0x0000, None, 0x0000, 0xffff);
      InitRegister(0x0400_00be, 0x0be, 0x0000, None, 0x0000, 0xffff);
      InitRegister(0x0400_00c0, 0x0c0, 0x0000, None, 0x0000, 0xffff);
      InitRegister(0x0400_00c2, 0x0c2, 0x0000, None, 0x0000, 0xffff);
      InitRegister(0x0400_00c4, 0x0c4, 0x0000, None, 0x0000, 0xffff);
      InitRegister(0x0400_00c6, 0x0c6, 0x0000, Some(DmaControl(1)), 0xffff, 0xffff);
      InitRegister(0x0400_00c8, 0x0c8, 0x0000, None, 0x0000, 0xffff);
      InitRegister(0x0400_00ca, 0x0ca, 0x0000, None, 0x0000, 0xffff);
      InitRegister(0x0400_00cc, 0x0cc, 0x0000, None, 0x0000, 0xffff);
      InitRegister(0x0400_00ce, 0x0ce, 0x0000, None, 0x0000, 0xffff);
      InitRegister(0x0400_00d0, 0x0d0, 0x0000, None, 0x0000, 0xffff);
      InitRegister(0x0400_00d2, 0x0d2, 0x0000, Some(DmaControl(2)), 0xffff, 0xffff);
      InitRegister(0x0400_00d4, 0x0d4, 0x0000, None, 0x0000, 0xffff);
      InitRegister(0x0400_00d6, 0x0d6, 0x0000, None, 0x0000, 0xffff);
      InitRegister(0x0400_00d8, 0x0d8, 0x0000, None, 0x0000, 0xffff);
      InitRegister(0x0400_00da, 0x0da, 0x0000, None, 0x0000, 0xffff);
      InitRegister(0x0400_00dc, 0x0dc, 0x0000, None, 0x0000, 0xffff);
      InitRegister(0x0400_00de, 0x0de, 0x0000, Some(DmaControl(3)), 0xffff, 0xffff);
    }

    /** `init`, the timer registers (lines 127-134). */
    method InitTimers()
      requires Valid()
      modifies io
      ensures io[..] == TimersRegisters(old(io[..]))
    {
      InitRegister(0x0400_0100, 0x100, 0x0000, Some(TimerControl(0, false)), 0xffff, 0xffff);
      InitRegister(0x0400_0102, 0x102, 0x0000, Some(TimerControl(0, true)), 0xffff, 0xffff);
      InitRegister(0x0400_0104, 0x104, 0x0000, Some(TimerControl(1, false)), 0xffff, 0xffff);
      InitRegister(0x0400_0106, 0x106, 0x0000, Some(TimerControl(1, true)), 0xffff, 0xffff);
      InitRegister(0x0400_0108, 0x108, 0x0000, Some(TimerControl(2, false)), 0xffff, 0xffff);
      InitRegister(0x0400_010a, 0x10a, 0x0000, Some(TimerControl(2, true)), 0xffff, 0xffff);
      InitRegister(0x0400_010c, 0x10c, 0x0000, Some(TimerControl(3, false)), 0xffff, 0xffff);
      InitRegister(0x0400_010e, 0x10e, 0x0000, Some(TimerControl(3, true)), 0xffff, 0xffff);
    }

    /** `init`, the serial and keypad registers (lines 135-150). */
    method InitSerial()
      requires Valid()
      modifies io
      ensures io[..] == SerialRegisters(old(io[..]))
    {
      InitRegister(0x0400_0120, 0x120, 0x0000, None, 0xffff, 0xffff);
      InitRegister(0x0400_0122, 0x122, 0x0000, None, 0xffff, 0xffff);
      InitRegister(0x0400_0124, 0x124, 0x0000, None, 0xffff, 0xffff);
      InitRegister(0x0400_0126, 0x126, 0x0000, None, 0xffff, 0xffff);
      InitRegister(0x0400_0128, 0x128, 0x0000, None, 0xffff, 0xffff);
      InitRegister(0x0400_012a, 0x12a, 0x0000, None, 0xffff, 0xffff);
      InitRegister(0x0400_0130, 0x130, 0x0000, None, 0x03ff, 0x0000);
      InitRegister(0x0400_0132, 0x132, 0x0000, None, 0xc3ff, 0xc3ff);
      InitRegister(0x0400_0134, 0x134, 0x0000, None, 0xffff, 0xffff);
      InitRegister(0x0400_0136, 0x136, 0x0000, None, 0x0000, 0x0000);
      InitRegister(0x0400_0140, 0x140, 0x0000, None, 0xffff, 0xffff);
      InitRegister(0x0400_0150, 0x150, 0x0000, None, 0xffff, 0xffff);
      InitRegister(0x0400_0152, 0x152, 0x0000, None, 0xffff, 0xffff);
      InitRegister(0x0400_0154, 0x154, 0x0000, None, 0xffff, 0xffff);
      InitRegister(0x0400_0156, 0x156, 0x0000, None, 0xffff, 0xffff);
      InitRegister(0x0400_0158, 0x158, 0x0000, None, 0xffff, 0xffff);
    }

    /** `init`, the interrupt, wait-state, power and memory-control registers (lines 151-158). */
    method InitSystem()
      requires Valid()
      modifies io
      ensures io[..] == SystemRegisters(old(io[..]))
    {
      InitRegister(0x0400_0200, 0x200, 0x0000, Some(InterruptFlags), 0xffff, 0xffff);
      InitRegister(0x0400_0202, 0x200, 0x0000, None, 0xffff, 0xffff);
      InitRegister(0x0400_0204, 0x204, 0x0000, None, 0xffff, 0xffff);
      InitRegister(0x0400_0208, 0x208, 0x0000, None, 0xffff, 0xffff);
      InitRegister(0x0400_0300, 0x300, 0x0000, None, 0xff00, 0xffff);
      InitRegister(0x0400_0410, 0x410, 0x0000, None, 0xffff, 0xffff);
      InitRegister(0x0400_0800, 0x800, 0x0000, None, 0xffff, 0xffff);
      InitRegister(0x0400_0802, 0x802, 0x0000, None, 0xffff, 0xffff);
    }
  }

  /** One blanking step keeps the slots of the addresses below. */
  lemma BlankStep(t: seq<Entry>, address: bv32)
    requires Shaped(t) && InitAddress(address)
    requires forall a :: InitAddress(a) && a < address ==> t[SlotOf(a)] == BLANK
    ensures var t' := Install(t, address, BLANK);
            forall a :: InitAddress(a) && a < address + 2 ==> t'[SlotOf(a)] == BLANK
  {
    ConvertsToSlotAddress(address);
    forall a | InitAddress(a) && a < address + 2 && a != address
      ensures a < address && SlotOf(a) != SlotOf(address)
    {
      InitSlotsDistinct(a, address);
    }
  }

  /** Once all the addresses are walked, every slot is blank. */
  lemma AllBlank(t: seq<Entry>)
    requires Shaped(t)
    requires forall a :: InitAddress(a) && a < 0x0400_0804 ==> t[SlotOf(a)] == BLANK
    ensures t == BlankTable()
  {
    forall k | 0 <= k < SLOT_COUNT
      ensures t[k] == BLANK
    {
      var a := SlotAddress(SlotNumbered(k));
      SlotAddressConverts(SlotNumbered(k));
      assert InitAddress(a) && SlotOf(a) == k;
    }
  }

  /** The slot number of table index `k`, counted up from slot 0. */
  function SlotNumbered(k: nat): (slot: bv32)
    requires k < SLOT_COUNT
    ensures slot < 0x402 && Index(slot) == k
  {
    if k == 0 then 0
    else
      var s := SlotNumbered(k - 1);
      NextSlot(s);
      s + 1
  }

  /** The next slot has the next index. */
  lemma NextSlot(s: bv32)
    requires s < 0x402 && Index(s) < 0x401
    ensures s + 1 < 0x402 && Index(s + 1) == Index(s) + 1
  {
    var x := s as bv11;
    BelowLast(x);
    assert (s + 1) as bv11 == x + 1;
    IncrementValue(x);
  }

  lemma BelowLast(x: bv11)
    requires x as nat < 0x401
    ensures x < 0x401
  {
  }

  lemma IncrementValue(x: bv11)
    requires x < 0x401
    ensures (x + 1) as nat == x as nat + 1
  {
  }
}
