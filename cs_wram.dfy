// src/GBA/WRAM.cs: on-board and on-chip work RAM of the C# core, a byte
// array whose size is a power of two; every access keeps the address bits
// below the size (`addr & (size - 1)`), so the array repeats across the
// region. The 16- and 32-bit accesses are the ones WRAM inherits from
// BusPeripheral.

module CsWram {
  import opened Bits
  import CsBusPeripheral

  /** The sizes `GBA` creates: 262144 bytes of on-board RAM and 32768 of on-chip RAM. */
  const WRAM_SLOW_SIZE: bv32 := 262144
  const WRAM_FAST_SIZE: bv32 := 32768
  const BIOS_FILE_SIZE: bv32 := 16384

  lemma SizesArePowersOfTwo()
    ensures IsPowerOfTwo(WRAM_SLOW_SIZE) && IsPowerOfTwo(WRAM_FAST_SIZE) && IsPowerOfTwo(BIOS_FILE_SIZE)
    ensures WRAM_SLOW_SIZE == 1 << 18 && WRAM_FAST_SIZE == 1 << 15 && BIOS_FILE_SIZE == 1 << 14
  {
  }

  /** The cell an address reaches. */
  function Cell(mask: bv32, addr: bv32): nat {
    Unsigned(addr & mask)
  }

  /** Every address reaches a cell of an array of `mask + 1` bytes. */
  lemma CellInRange(mask: bv32, addr: bv32)
    ensures Cell(mask, addr) < Unsigned(mask) + 1
  {
    UnsignedMasked(addr, mask);
  }

  /** Addresses whose masked bits differ reach different cells. */
  lemma DifferentCells(mask: bv32, a: bv32, b: bv32)
    requires a & mask != b & mask
    ensures Cell(mask, a) != Cell(mask, b)
  {
    if Cell(mask, a) == Cell(mask, b) {
      UnsignedInjective(a & mask, b & mask);
    }
  }

  /** The byte a read of `addr` returns from the contents `c`. */
  function ByteAt(c: seq<bv8>, mask: bv32, addr: bv32): bv8 {
    Peek(c, Cell(mask, addr))
  }

  /** The contents `c` as the `Read8` the inherited accesses are built on. */
  function Reader(c: seq<bv8>, mask: bv32): bv32 -> bv8 {
    a => ByteAt(c, mask, a)
  }

  /** The contents after `Write8(addr, val)`. */
  function Store(c: seq<bv8>, mask: bv32, addr: bv32, val: bv8): seq<bv8> {
    Poke(c, Cell(mask, addr), val)
  }

  /** The contents after a sequence of `Write8` calls, in order. */
  function StoreAll(c: seq<bv8>, mask: bv32, ws: seq<CsBusPeripheral.ByteWrite>): seq<bv8>
    decreases |ws|
  {
    if ws == [] then c else StoreAll(Store(c, mask, ws[0].addr, ws[0].value), mask, ws[1..])
  }

  lemma StoreAllConcat(c: seq<bv8>, mask: bv32, ws: seq<CsBusPeripheral.ByteWrite>, vs: seq<CsBusPeripheral.ByteWrite>)
    ensures StoreAll(c, mask, ws + vs) == StoreAll(StoreAll(c, mask, ws), mask, vs)
    decreases |ws|
  {
    if ws == [] {
      assert ws + vs == vs;
    } else {
      assert (ws + vs)[0] == ws[0];
      assert (ws + vs)[1..] == ws[1..] + vs;
      StoreAllConcat(Store(c, mask, ws[0].addr, ws[0].value), mask, ws[1..], vs);
    }
  }

  lemma StoreAllTwo(c: seq<bv8>, mask: bv32, w0: CsBusPeripheral.ByteWrite, w1: CsBusPeripheral.ByteWrite)
    ensures StoreAll(c, mask, [w0, w1]) == Store(Store(c, mask, w0.addr, w0.value), mask, w1.addr, w1.value)
  {
    var c1 := Store(c, mask, w0.addr, w0.value);
    assert [w0, w1][1..] == [w1];
    assert StoreAll(c, mask, [w0, w1]) == StoreAll(c1, mask, [w1]);
    assert [w1][1..] == [];
    assert StoreAll(c1, mask, [w1]) == StoreAll(Store(c1, mask, w1.addr, w1.value), mask, []);
  }

  /** The array repeats every `size` bytes: `addr` and `addr + size` read the same byte. */
  lemma Mirror(c: seq<bv8>, size: bv32, addr: bv32)
    requires IsPowerOfTwo(size)
    ensures ByteAt(c, size - 1, addr + size) == ByteAt(c, size - 1, addr)
  {
    assert (addr + size) & (size - 1) == addr & (size - 1);
  }

  /** A write followed by a read of any address agreeing in the masked bits returns the byte. */
  lemma Write8ThenRead8(c: seq<bv8>, mask: bv32, addr: bv32, other: bv32, val: bv8)
    requires |c| == Unsigned(mask) + 1
    requires addr & mask == other & mask
    ensures ByteAt(Store(c, mask, addr, val), mask, other) == val
  {
    CellInRange(mask, addr);
  }

  /** A write changes exactly the one cell it reaches. */
  lemma Write8ChangesOneByte(c: seq<bv8>, mask: bv32, addr: bv32, val: bv8)
    requires |c| == Unsigned(mask) + 1
    ensures Cell(mask, addr) < |c|
    ensures var c' := Store(c, mask, addr, val);
            |c'| == |c| && c'[Cell(mask, addr)] == val &&
            forall k :: 0 <= k < |c| && k != Cell(mask, addr) ==> c'[k] == c[k]
  {
    CellInRange(mask, addr);
  }

  /** A read of an address whose masked bits differ from the written one's is unchanged by the write. */
  lemma Write8Frame(c: seq<bv8>, mask: bv32, addr: bv32, other: bv32, val: bv8)
    requires |c| == Unsigned(mask) + 1
    requires addr & mask != other & mask
    ensures ByteAt(Store(c, mask, addr, val), mask, other) == ByteAt(c, mask, other)
  {
    CellInRange(mask, addr);
    DifferentCells(mask, addr, other);
  }

  /** A read after a write: the written byte where the masked bits agree, the old byte elsewhere. */
  lemma StoreThenRead(c: seq<bv8>, mask: bv32, addr: bv32, val: bv8, other: bv32)
    requires |c| == Unsigned(mask) + 1
    ensures |Store(c, mask, addr, val)| == |c|
    ensures ByteAt(Store(c, mask, addr, val), mask, other) ==
            if addr & mask == other & mask then val else ByteAt(c, mask, other)
  {
    if addr & mask == other & mask {
      Write8ThenRead8(c, mask, addr, other, val);
    } else {
      Write8Frame(c, mask, addr, other, val);
    }
  }

  /** The contents after the four byte writes of `Write32`. */
  function Store32(c: seq<bv8>, mask: bv32, addr: bv32, val: bv32): seq<bv8> {
    Store(Store(Store(Store(c, mask, addr, ByteOf(val, 0)), mask, addr + 1, ByteOf(val, 1)),
                mask, addr + 2, ByteOf(val, 2)), mask, addr + 3, ByteOf(val, 3))
  }

  lemma Write32Stores(c: seq<bv8>, mask: bv32, addr: bv32, val: bv32)
    ensures StoreAll(c, mask, CsBusPeripheral.Write32(addr, val)) == Store32(c, mask, addr, val)
  {
    var a0, a1, a2, a3 := addr, addr + 1, addr + 2, addr + 3;
    var b0, b1, b2, b3 := ByteOf(val, 0), ByteOf(val, 1), ByteOf(val, 2), ByteOf(val, 3);
    var w0, w1 := CsBusPeripheral.ByteWrite(a0, b0), CsBusPeripheral.ByteWrite(a1, b1);
    var w2, w3 := CsBusPeripheral.ByteWrite(a2, b2), CsBusPeripheral.ByteWrite(a3, b3);
    CsBusPeripheral.Write32Bytes(addr, val);
    assert CsBusPeripheral.Write32(addr, val) == [w0, w1] + [w2, w3];
    StoreAllConcat(c, mask, [w0, w1], [w2, w3]);
    StoreAllTwo(c, mask, w0, w1);
    StoreAllTwo(Store(Store(c, mask, a0, b0), mask, a1, b1), mask, w2, w3);
  }

  /** With at least four bytes, the four bytes of a word are four different cells. */
  lemma WordCells(mask: bv32, addr: bv32)
    requires mask & 3 == 3
    ensures Cell(mask, addr) != Cell(mask, addr + 1) && Cell(mask, addr) != Cell(mask, addr + 2)
    ensures Cell(mask, addr) != Cell(mask, addr + 3) && Cell(mask, addr + 1) != Cell(mask, addr + 2)
    ensures Cell(mask, addr + 1) != Cell(mask, addr + 3) && Cell(mask, addr + 2) != Cell(mask, addr + 3)
  {
    Apart01(mask, addr);
    Apart02(mask, addr);
    Apart03(mask, addr);
    Apart12(mask, addr);
    Apart13(mask, addr);
    Apart23(mask, addr);
  }

  // With at least four bytes, each pair of the word's addresses reaches different cells.

  lemma Apart01(mask: bv32, addr: bv32)
    requires mask & 3 == 3
    ensures Cell(mask, addr) != Cell(mask, addr + 1)
  {
    DifferentCells(mask, addr, addr + 1);
  }

  lemma Apart02(mask: bv32, addr: bv32)
    requires mask & 3 == 3
    ensures Cell(mask, addr) != Cell(mask, addr + 2)
  {
    DifferentCells(mask, addr, addr + 2);
  }

  lemma Apart03(mask: bv32, addr: bv32)
    requires mask & 3 == 3
    ensures Cell(mask, addr) != Cell(mask, addr + 3)
  {
    DifferentCells(mask, addr, addr + 3);
  }

  lemma Apart12(mask: bv32, addr: bv32)
    requires mask & 3 == 3
    ensures Cell(mask, addr + 1) != Cell(mask, addr + 2)
  {
    DifferentCells(mask, addr + 1, addr + 2);
  }

  lemma Apart13(mask: bv32, addr: bv32)
    requires mask & 3 == 3
    ensures Cell(mask, addr + 1) != Cell(mask, addr + 3)
  {
    DifferentCells(mask, addr + 1, addr + 3);
  }

  lemma Apart23(mask: bv32, addr: bv32)
    requires mask & 3 == 3
    ensures Cell(mask, addr + 2) != Cell(mask, addr + 3)
  {
    DifferentCells(mask, addr + 2, addr + 3);
  }

  /** Four writes to four different cells: each cell holds its byte. */
  lemma PutFour(c: seq<bv8>, k0: nat, k1: nat, k2: nat, k3: nat, b0: bv8, b1: bv8, b2: bv8, b3: bv8)
    requires k0 < |c| && k1 < |c| && k2 < |c| && k3 < |c|
    requires k0 != k1 && k0 != k2 && k0 != k3 && k1 != k2 && k1 != k3 && k2 != k3
    ensures var c4 := Poke(Poke(Poke(Poke(c, k0, b0), k1, b1), k2, b2), k3, b3);
            Peek(c4, k0) == b0 && Peek(c4, k1) == b1 && Peek(c4, k2) == b2 && Peek(c4, k3) == b3
  {
  }

  /** Each of the four bytes `Write32` stores is read back from its address. */
  lemma Store32Bytes(c: seq<bv8>, mask: bv32, addr: bv32, val: bv32)
    requires |c| == Unsigned(mask) + 1 && mask & 3 == 3
    ensures var c4 := Store32(c, mask, addr, val);
            ByteAt(c4, mask, addr) == ByteOf(val, 0) && ByteAt(c4, mask, addr + 1) == ByteOf(val, 1) &&
            ByteAt(c4, mask, addr + 2) == ByteOf(val, 2) && ByteAt(c4, mask, addr + 3) == ByteOf(val, 3)
  {
    var k0, k1, k2, k3 := Cell(mask, addr), Cell(mask, addr + 1), Cell(mask, addr + 2), Cell(mask, addr + 3);
    WordCells(mask, addr);
    CellInRange(mask, addr);
    CellInRange(mask, addr + 1);
    CellInRange(mask, addr + 2);
    CellInRange(mask, addr + 3);
    PutFour(c, k0, k1, k2, k3, ByteOf(val, 0), ByteOf(val, 1), ByteOf(val, 2), ByteOf(val, 3));
  }

  /** `Write32` then `Read32` on a work RAM of at least four bytes gives the word back. */
  lemma Write32ThenRead32(c: seq<bv8>, mask: bv32, addr: bv32, val: bv32)
    requires |c| == Unsigned(mask) + 1 && mask & 3 == 3
    ensures var c' := StoreAll(c, mask, CsBusPeripheral.Write32(addr, val));
            CsBusPeripheral.Read32(Reader(c', mask), addr) == val
  {
    Write32Stores(c, mask, addr, val);
    Store32Bytes(c, mask, addr, val);
    var f := Reader(Store32(c, mask, addr, val), mask);
    CsBusPeripheral.Read32LittleEndian(f, addr);
    BytesMakeWord(val, CsBusPeripheral.Read32(f, addr));
  }

  /** `class WRAM`. */
  class Wram {
    const data: array<bv8>
    const addressMask: bv32

    ghost predicate Valid()
      reads this
    {
      IsPowerOfTwo(addressMask + 1) && data.Length == Unsigned(addressMask) + 1
    }

    /** `new WRAM(size)`: a zeroed array and the mask `size - 1`. */
    constructor (size: bv32)
      requires IsPowerOfTwo(size)
      ensures Valid() && addressMask == size - 1 && data[..] == seq(Unsigned(size), _ => 0)
    {
      data := new bv8[Unsigned(size)](_ => 0);
      addressMask := size - 1;
      new;
      MaskBelowPowerOfTwo(size);
      assert addressMask + 1 == size;
    }

    method Read8(addr: bv32) returns (v: bv8)
      requires Valid()
      ensures v == ByteAt(data[..], addressMask, addr)
    {
      CellInRange(addressMask, addr);
      v := data[Cell(addressMask, addr)];
    }

    method Write8(addr: bv32, val: bv8)
      requires Valid()
      modifies data
      ensures data[..] == Store(old(data[..]), addressMask, addr, val)
    {
      CellInRange(addressMask, addr);
      data[Cell(addressMask, addr)] := val;
    }

    /** The inherited `Read16`. */
    method Read16(addr: bv32) returns (v: bv16)
      requires Valid()
      ensures v == CsBusPeripheral.Read16(Reader(data[..], addressMask), addr)
    {
      var lo := Read8(addr);
      var hi := Read8(addr + 1);
      v := Join8(lo, hi);
    }

    /** The inherited `Read32`. */
    method Read32(addr: bv32) returns (v: bv32)
      requires Valid()
      ensures v == CsBusPeripheral.Read32(Reader(data[..], addressMask), addr)
    {
      var lo := Read16(addr);
      var hi := Read16(addr + 2);
      v := Join16(lo, hi);
    }

    /** The inherited `Write16`. */
    method Write16(addr: bv32, val: bv16)
      requires Valid()
      modifies data
      ensures data[..] == StoreAll(old(data[..]), addressMask, CsBusPeripheral.Write16(addr, val))
    {
      Write8(addr, Lo8(val));
      Write8(addr + 1, Hi8(val));
      StoreAllTwo(old(data[..]), addressMask, CsBusPeripheral.ByteWrite(addr, Lo8(val)), CsBusPeripheral.ByteWrite(addr + 1, Hi8(val)));
    }

    /** The inherited `Write32`. */
    method Write32(addr: bv32, val: bv32)
      requires Valid()
      modifies data
      ensures data[..] == StoreAll(old(data[..]), addressMask, CsBusPeripheral.Write32(addr, val))
    {
      Write16(addr, Lo16(val));
      Write16(addr + 2, Hi16(val));
      StoreAllConcat(old(data[..]), addressMask, CsBusPeripheral.Write16(addr, Lo16(val)), CsBusPeripheral.Write16(addr + 2, Hi16(val)));
    }
  }
}
