// src/GBA/BusPeripheral.cs: the 16- and 32-bit accesses every bus
// peripheral of the C# core inherits, composed little-endian from the
// peripheral's own 8-bit `Read8` and `Write8`.
//
// `Read8` is the peripheral's, so the reads take it as a function; a write
// is the sequence of `Write8` calls it makes.

module CsBusPeripheral {
  import opened Bits

  /** One call `Write8(addr, value)`. */
  datatype ByteWrite = ByteWrite(addr: bv32, value: bv8)

  /** `Read16`: the byte at `addr` is the low one. */
  function Read16(read8: bv32 -> bv8, addr: bv32): bv16 {
    Join8(read8(addr), read8(addr + 1))
  }

  /** `Read32`: the halfword at `addr` is the low one. */
  function Read32(read8: bv32 -> bv8, addr: bv32): bv32 {
    Join16(Read16(read8, addr), Read16(read8, addr + 2))
  }

  /** `Write16`: the low byte at `addr`, then the high byte at `addr + 1`. */
  function Write16(addr: bv32, val: bv16): seq<ByteWrite> {
    [ByteWrite(addr, Lo8(val)), ByteWrite(addr + 1, Hi8(val))]
  }

  /** `Write32`: the low halfword at `addr`, then the high halfword at `addr + 2`. */
  function Write32(addr: bv32, val: bv32): seq<ByteWrite> {
    Write16(addr, Lo16(val)) + Write16(addr + 2, Hi16(val))
  }

  /** `Read32` is little-endian: byte k of the word is the byte at `addr + k`. */
  lemma Read32LittleEndian(read8: bv32 -> bv8, addr: bv32)
    ensures var v := Read32(read8, addr);
            ByteOf(v, 0) == read8(addr) && ByteOf(v, 1) == read8(addr + 1) &&
            ByteOf(v, 2) == read8(addr + 2) && ByteOf(v, 3) == read8(addr + 3)
  {
    assert addr + 2 + 1 == addr + 3;
  }

  /** `Write32` makes four byte writes: byte k of the word goes to `addr + k`, lowest first. */
  lemma Write32Bytes(addr: bv32, val: bv32)
    ensures Write32(addr, val) ==
            [ByteWrite(addr, ByteOf(val, 0)), ByteWrite(addr + 1, ByteOf(val, 1)),
             ByteWrite(addr + 2, ByteOf(val, 2)), ByteWrite(addr + 3, ByteOf(val, 3))]
  {
    assert addr + 2 + 1 == addr + 3;
  }

  // A peripheral whose bytes are independent cells: Write8 stores a byte
  // that Read8 returns, and touches no other address.

  /** The byte at `a` once the writes `ws` are done in order: the last write to `a` wins. */
  function After(mem: bv32 -> bv8, ws: seq<ByteWrite>, a: bv32): bv8
    decreases |ws|
  {
    if ws == [] then mem(a)
    else if ws[|ws| - 1].addr == a then ws[|ws| - 1].value
    else After(mem, ws[..|ws| - 1], a)
  }

  lemma AfterTwo(mem: bv32 -> bv8, w0: ByteWrite, w1: ByteWrite, a: bv32)
    ensures After(mem, [w0, w1], a) ==
            if a == w1.addr then w1.value else if a == w0.addr then w0.value else mem(a)
  {
    assert [w0, w1][..1] == [w0];
    assert [w0][..0] == [];
    assert After(mem, [w0], a) == if a == w0.addr then w0.value else After(mem, [], a);
  }

  lemma AfterFour(mem: bv32 -> bv8, w0: ByteWrite, w1: ByteWrite, w2: ByteWrite, w3: ByteWrite, a: bv32)
    ensures After(mem, [w0, w1, w2, w3], a) ==
            if a == w3.addr then w3.value else if a == w2.addr then w2.value else After(mem, [w0, w1], a)
  {
    assert [w0, w1, w2, w3][..3] == [w0, w1, w2];
    assert [w0, w1, w2][..2] == [w0, w1];
  }

  /** On independent bytes, `Write16` then `Read16` gives the halfword back. */
  lemma Write16ThenRead16(mem: bv32 -> bv8, addr: bv32, val: bv16)
    ensures Read16(a => After(mem, Write16(addr, val), a), addr) == val
  {
    Distinct(addr);
    AfterTwo(mem, ByteWrite(addr, Lo8(val)), ByteWrite(addr + 1, Hi8(val)), addr);
    AfterTwo(mem, ByteWrite(addr, Lo8(val)), ByteWrite(addr + 1, Hi8(val)), addr + 1);
    Join8Split(val);
  }

  /** `Write16` leaves every byte but the two it writes. */
  lemma Write16Frame(mem: bv32 -> bv8, addr: bv32, val: bv16, a: bv32)
    requires a != addr && a != addr + 1
    ensures After(mem, Write16(addr, val), a) == mem(a)
  {
    AfterTwo(mem, ByteWrite(addr, Lo8(val)), ByteWrite(addr + 1, Hi8(val)), a);
  }

  /** On independent bytes, `Write32` then `Read32` gives the word back. */
  lemma Write32ThenRead32(mem: bv32 -> bv8, addr: bv32, val: bv32)
    ensures Read32(a => After(mem, Write32(addr, val), a), addr) == val
  {
    var w0, w1 := ByteWrite(addr, ByteOf(val, 0)), ByteWrite(addr + 1, ByteOf(val, 1));
    var w2, w3 := ByteWrite(addr + 2, ByteOf(val, 2)), ByteWrite(addr + 3, ByteOf(val, 3));
    Write32Bytes(addr, val);
    Distinct(addr);
    AfterFour(mem, w0, w1, w2, w3, addr);
    AfterFour(mem, w0, w1, w2, w3, addr + 1);
    AfterFour(mem, w0, w1, w2, w3, addr + 2);
    AfterFour(mem, w0, w1, w2, w3, addr + 3);
    AfterTwo(mem, w0, w1, addr);
    AfterTwo(mem, w0, w1, addr + 1);
    var f := a => After(mem, Write32(addr, val), a);
    Read32LittleEndian(f, addr);
    BytesMakeWord(val, Read32(f, addr));
  }

  lemma Distinct(addr: bv32)
    ensures addr != addr + 1 && addr != addr + 2 && addr != addr + 3
    ensures addr + 1 != addr + 2 && addr + 1 != addr + 3 && addr + 2 != addr + 3
  {
  }
}
