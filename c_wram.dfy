// src/core/ewram.c and src/core/iwram.c: the two work RAMs of the C core.
// The files are the same code over arrays of 262144 and 32768 bytes: each
// access masks the address to the array (clearing bit 0 for halfwords and
// bits 1:0 for words) and lays multi-byte values out little-endian.

module CWram {
  import opened Bits
  import opened CBytes

  /** On-board (ewram.c) or on-chip (iwram.c) work RAM. */
  datatype Region = Ewram | Iwram

  /** The address mask of the byte accesses; one below the array size. */
  function MaskOf(r: Region): bv32 {
    match r
    case Ewram => 0x0003_ffff
    case Iwram => 0x0000_7fff
  }

  /** The halfword accesses clear bit 0, the word accesses bits 1:0. */
  function Half(mask: bv32): bv32 { mask & 0xffff_fffe }
  function Word(mask: bv32): bv32 { mask & 0xffff_fffc }

  /** The masks the source writes out: 0x3fffe, 0x3fffc, 0x7ffe and 0x7ffc. */
  lemma RegionMasks(r: Region)
    ensures WellFormed(MaskOf(r)) && IsPowerOfTwo(MaskOf(r) + 1)
    ensures r == Ewram ==> Half(MaskOf(r)) == 0x0003_fffe && Word(MaskOf(r)) == 0x0003_fffc
    ensures r == Iwram ==> Half(MaskOf(r)) == 0x0000_7ffe && Word(MaskOf(r)) == 0x0000_7ffc
  {
  }

  /** A mask with its two low bits set, so that a word fits below it. */
  predicate WellFormed(mask: bv32) {
    mask & 3 == 3
  }

  /** `C_EWRAM_SIZE_BYTES` and `C_IWRAM_SIZE_BYTES`: one more than the byte mask. */
  function Size(mask: bv32): nat {
    Unsigned(mask) + 1
  }

  lemma Sizes()
    ensures Size(MaskOf(Ewram)) == 262144 && Size(MaskOf(Iwram)) == 32768
  {
  }

  /** The cell a byte access reaches, and the first cell of a halfword or word access. */
  function Index8(mask: bv32, addr: bv32): nat { Unsigned(addr & mask) }
  function Index16(mask: bv32, addr: bv32): nat { Unsigned(addr & Half(mask)) }
  function Index32(mask: bv32, addr: bv32): nat { Unsigned(addr & Word(mask)) }

  /** Every access stays inside the array. */
  lemma IndicesInRange(mask: bv32, addr: bv32)
    requires WellFormed(mask)
    ensures Index8(mask, addr) < Size(mask)
    ensures Index16(mask, addr) + 1 < Size(mask)
    ensures Index32(mask, addr) + 3 < Size(mask)
  {
    UnsignedMasked(addr, mask);
    HalfInRange(mask, addr);
    WordInRange(mask, addr);
  }

  lemma HalfInRange(mask: bv32, addr: bv32)
    requires WellFormed(mask)
    ensures Index16(mask, addr) + 1 < Size(mask)
  {
    UnsignedMasked(addr, Half(mask));
    HalfBelow(mask);
  }

  lemma WordInRange(mask: bv32, addr: bv32)
    requires WellFormed(mask)
    ensures Index32(mask, addr) + 3 < Size(mask)
  {
    UnsignedMasked(addr, Word(mask));
    HalfBelow(mask);
    WordBelow(mask);
    WordChain(Unsigned(addr & Word(mask)), Unsigned(Word(mask)), Unsigned(Half(mask)), Unsigned(mask));
  }

  lemma WordChain(index: int, word: int, half: int, mask: int)
    requires index <= word && half == word + 2 && mask == half + 1
    ensures index + 3 < mask + 1
  {
  }

  lemma HalfBelow(mask: bv32)
    requires WellFormed(mask)
    ensures Unsigned(mask) == Unsigned(Half(mask)) + 1
  {
    HalfBits(mask);
    UnsignedSetBit0(Half(mask));
  }

  lemma HalfBits(mask: bv32)
    requires WellFormed(mask)
    ensures Half(mask) & 1 == 0 && Half(mask) | 1 == mask
  {
  }

  lemma WordBelow(mask: bv32)
    requires WellFormed(mask)
    ensures Unsigned(Half(mask)) == Unsigned(Word(mask)) + 2
  {
    WordBits(mask);
    UnsignedSetBit1(Word(mask));
  }

  lemma WordBits(mask: bv32)
    requires WellFormed(mask)
    ensures Word(mask) & 2 == 0 && Word(mask) | 2 == Half(mask)
  {
  }

  function Read8Spec(mask: bv32, c: seq<bv8>, addr: bv32): bv8
    requires WellFormed(mask) && |c| == Size(mask)
  {
    IndicesInRange(mask, addr);
    c[Index8(mask, addr)]
  }

  function Read16Spec(mask: bv32, c: seq<bv8>, addr: bv32): bv16
    requires WellFormed(mask) && |c| == Size(mask)
  {
    IndicesInRange(mask, addr);
    Load16(c, Index16(mask, addr))
  }

  function Read32Spec(mask: bv32, c: seq<bv8>, addr: bv32): bv32
    requires WellFormed(mask) && |c| == Size(mask)
  {
    IndicesInRange(mask, addr);
    Load32(c, Index32(mask, addr))
  }

  function Write8Spec(mask: bv32, c: seq<bv8>, addr: bv32, v: bv8): (c': seq<bv8>)
    requires WellFormed(mask) && |c| == Size(mask)
    ensures |c'| == Size(mask)
  {
    IndicesInRange(mask, addr);
    c[Index8(mask, addr) := v]
  }

  function Write16Spec(mask: bv32, c: seq<bv8>, addr: bv32, v: bv16): (c': seq<bv8>)
    requires WellFormed(mask) && |c| == Size(mask)
    ensures |c'| == Size(mask)
  {
    IndicesInRange(mask, addr);
    Store16(c, Index16(mask, addr), v)
  }

  function Write32Spec(mask: bv32, c: seq<bv8>, addr: bv32, v: bv32): (c': seq<bv8>)
    requires WellFormed(mask) && |c| == Size(mask)
    ensures |c'| == Size(mask)
  {
    IndicesInRange(mask, addr);
    Store32(c, Index32(mask, addr), v)
  }

  /** A byte write is read back from every address with the same masked bits. */
  lemma Write8ThenRead8(mask: bv32, c: seq<bv8>, addr: bv32, other: bv32, v: bv8)
    requires WellFormed(mask) && |c| == Size(mask) && addr & mask == other & mask
    ensures Read8Spec(mask, Write8Spec(mask, c, addr, v), other) == v
  {
    SameCell(mask, addr, other);
    IndicesInRange(mask, addr);
  }

  lemma SameCell(mask: bv32, addr: bv32, other: bv32)
    requires addr & mask == other & mask
    ensures Index8(mask, addr) == Index8(mask, other)
  {
  }

  /** A halfword write is read back by a halfword read of the same halfword. */
  lemma Write16ThenRead16(mask: bv32, c: seq<bv8>, addr: bv32, other: bv32, v: bv16)
    requires WellFormed(mask) && |c| == Size(mask) && addr & Half(mask) == other & Half(mask)
    ensures Read16Spec(mask, Write16Spec(mask, c, addr, v), other) == v
  {
    IndicesInRange(mask, addr);
    Store16ThenLoad16(c, Index16(mask, addr), v);
  }

  /** A word write is read back by a word read of the same word. */
  lemma Write32ThenRead32(mask: bv32, c: seq<bv8>, addr: bv32, other: bv32, v: bv32)
    requires WellFormed(mask) && |c| == Size(mask) && addr & Word(mask) == other & Word(mask)
    ensures Read32Spec(mask, Write32Spec(mask, c, addr, v), other) == v
  {
    IndicesInRange(mask, addr);
    Store32ThenLoad32(c, Index32(mask, addr), v);
  }

  /** Little-endian: a word read is the halfword at its address below the halfword two bytes up. */
  lemma Read32LittleEndian(mask: bv32, c: seq<bv8>, addr: bv32)
    requires WellFormed(mask) && |c| == Size(mask)
    ensures Index32(mask, addr) + 3 < |c|
    ensures Read32Spec(mask, c, addr) == Join16(Load16(c, Index32(mask, addr)), Load16(c, Index32(mask, addr) + 2))
  {
    IndicesInRange(mask, addr);
    Load32Halves(c, Index32(mask, addr));
  }

  /** Little-endian: a halfword write puts its low byte in the lower cell. */
  lemma Write16LittleEndian(mask: bv32, c: seq<bv8>, addr: bv32, v: bv16)
    requires WellFormed(mask) && |c| == Size(mask)
    ensures Index16(mask, addr) + 1 < |c|
    ensures var c' := Write16Spec(mask, c, addr, v);
            c'[Index16(mask, addr)] == Lo8(v) && c'[Index16(mask, addr) + 1] == Hi8(v)
  {
    IndicesInRange(mask, addr);
  }

  /** A halfword write leaves every cell but its two unchanged. */
  lemma Write16Frame(mask: bv32, c: seq<bv8>, addr: bv32, v: bv16, j: nat)
    requires WellFormed(mask) && |c| == Size(mask) && j < |c| && j != Index16(mask, addr) && j != Index16(mask, addr) + 1
    ensures Write16Spec(mask, c, addr, v)[j] == c[j]
  {
    IndicesInRange(mask, addr);
    Store16Frame(c, Index16(mask, addr), v, j);
  }

  /** The array repeats across the region: `addr` and `addr + size` reach the same byte. */
  lemma Mirror(mask: bv32, c: seq<bv8>, addr: bv32)
    requires WellFormed(mask) && |c| == Size(mask) && IsPowerOfTwo(mask + 1)
    ensures Read8Spec(mask, c, addr + (mask + 1)) == Read8Spec(mask, c, addr)
  {
    MirrorBits(mask + 1, addr);
    SameCell(mask, addr + (mask + 1), addr);
  }

  lemma MirrorBits(size: bv32, addr: bv32)
    requires IsPowerOfTwo(size)
    ensures (addr + size) & (size - 1) == addr & (size - 1)
  {
  }

  /** `s_ewramData` or `s_iwramData`. */
  class Wram {
    const region: Region
    const mask: bv32
    const data: array<bv8>

    ghost predicate Valid()
      reads this
    {
      mask == MaskOf(region) && WellFormed(mask) && data.Length == Size(mask)
    }

    /** The zero-initialised static array. */
    constructor (r: Region)
      ensures Valid() && region == r && fresh(data)
      ensures forall k :: 0 <= k < data.Length ==> data[k] == 0
    {
      region := r;
      mask := MaskOf(r);
      data := new bv8[Size(MaskOf(r))](_ => 0);
      RegionMasks(r);
    }

    /** `ewramReset` / `iwramReset`: zeroes the store. */
    method Reset()
      requires Valid()
      modifies data
      ensures forall k :: 0 <= k < data.Length ==> data[k] == 0
    {
      Zero(data);
    }

    method Read8(addr: bv32) returns (v: bv8)
      requires Valid()
      ensures v == Read8Spec(mask, data[..], addr)
    {
      IndicesInRange(mask, addr);
      v := data[Index8(mask, addr)];
    }

    method Read16(addr: bv32) returns (v: bv16)
      requires Valid()
      ensures v == Read16Spec(mask, data[..], addr)
    {
      IndicesInRange(mask, addr);
      v := Load16At(data, Index16(mask, addr));
    }

    method Read32(addr: bv32) returns (v: bv32)
      requires Valid()
      ensures v == Read32Spec(mask, data[..], addr)
    {
      IndicesInRange(mask, addr);
      v := Load32At(data, Index32(mask, addr));
    }

    method Write8(addr: bv32, v: bv8)
      requires Valid()
      modifies data
      ensures data[..] == Write8Spec(mask, old(data[..]), addr, v)
    {
      IndicesInRange(mask, addr);
      data[Index8(mask, addr)] := v;
    }

    method Write16(addr: bv32, v: bv16)
      requires Valid()
      modifies data
      ensures data[..] == Write16Spec(mask, old(data[..]), addr, v)
    {
      IndicesInRange(mask, addr);
      Store16At(data, Index16(mask, addr), v);
    }

    method Write32(addr: bv32, v: bv32)
      requires Valid()
      modifies data
      ensures data[..] == Write32Spec(mask, old(data[..]), addr, v)
    {
      IndicesInRange(mask, addr);
      Store32At(data, Index32(mask, addr), v);
    }
  }
}
