// src/core/gpu.c: the video memories of the C core. OAM and palette RAM
// are 1 KB each and masked to 10 bits; VRAM is 96 KB, reached through
// gpuVramComputeAddress, which folds the upper 32 KB of every 128 KB
// window onto the third 32 KB bank. Multi-byte accesses are little-endian;
// a byte write stores the byte into two consecutive cells. gpuInit and
// gpuCycle have empty bodies.

module CGpu {
  import opened Bits
  import opened CBytes

  const OAM_SIZE: nat := 1024
  const PALETTE_SIZE: nat := 1024
  const VRAM_SIZE: nat := 98304

  // -------------------------------------------------------------------
  // OAM and palette RAM: the masks 0x3ff, 0x3fe and 0x3fc.

  function SmallIndex8(addr: bv32): nat { Unsigned(addr & 0x3ff) }
  function SmallIndex16(addr: bv32): nat { Unsigned(addr & 0x3fe) }
  function SmallIndex32(addr: bv32): nat { Unsigned(addr & 0x3fc) }

  /** Every OAM and palette access stays inside the 1 KB array. */
  lemma SmallIndicesInRange(addr: bv32)
    ensures SmallIndex8(addr) < OAM_SIZE
    ensures SmallIndex16(addr) + 1 < OAM_SIZE
    ensures SmallIndex32(addr) + 3 < OAM_SIZE
  {
    SmallByteInRange(addr);
    SmallHalfInRange(addr);
    SmallWordInRange(addr);
  }

  lemma SmallByteInRange(addr: bv32)
    ensures SmallIndex8(addr) < OAM_SIZE
  {
    UnsignedMasked(addr, 0x3ff);
    assert Unsigned(0x3ff) == 1023;
  }

  lemma SmallHalfInRange(addr: bv32)
    ensures SmallIndex16(addr) + 1 < OAM_SIZE
  {
    UnsignedMasked(addr, 0x3fe);
    assert Unsigned(0x3fe) == 1022;
  }

  lemma SmallWordInRange(addr: bv32)
    ensures SmallIndex32(addr) + 3 < OAM_SIZE
  {
    UnsignedMasked(addr, 0x3fc);
    assert Unsigned(0x3fc) == 1020;
  }

  function SmallRead8Spec(c: seq<bv8>, addr: bv32): bv8
    requires |c| == OAM_SIZE
  {
    SmallIndicesInRange(addr);
    c[SmallIndex8(addr)]
  }

  function SmallRead16Spec(c: seq<bv8>, addr: bv32): bv16
    requires |c| == OAM_SIZE
  {
    SmallIndicesInRange(addr);
    Load16(c, SmallIndex16(addr))
  }

  function SmallRead32Spec(c: seq<bv8>, addr: bv32): bv32
    requires |c| == OAM_SIZE
  {
    SmallIndicesInRange(addr);
    Load32(c, SmallIndex32(addr))
  }

  function SmallWrite16Spec(c: seq<bv8>, addr: bv32, v: bv16): (c': seq<bv8>)
    requires |c| == OAM_SIZE
    ensures |c'| == OAM_SIZE
  {
    SmallIndicesInRange(addr);
    Store16(c, SmallIndex16(addr), v)
  }

  function SmallWrite32Spec(c: seq<bv8>, addr: bv32, v: bv32): (c': seq<bv8>)
    requires |c| == OAM_SIZE
    ensures |c'| == OAM_SIZE
  {
    SmallIndicesInRange(addr);
    Store32(c, SmallIndex32(addr), v)
  }

  /** `gpuOamWrite8`: the byte goes into both cells of the halfword the address is in. */
  function OamWrite8Spec(c: seq<bv8>, addr: bv32, v: bv8): (c': seq<bv8>)
    requires |c| == OAM_SIZE
    ensures |c'| == OAM_SIZE
  {
    SmallIndicesInRange(addr);
    StoreTwice(c, SmallIndex16(addr), v)
  }

  /** `gpuPaletteWrite8` as written: the byte mask, so the two cells start at the address itself. */
  function PaletteWrite8AsWritten(c: seq<bv8>, addr: bv32, v: bv8): (c': seq<bv8>)
    requires |c| == PALETTE_SIZE && SmallIndex8(addr) + 1 < PALETTE_SIZE
    ensures |c'| == PALETTE_SIZE
  {
    StoreTwice(c, SmallIndex8(addr), v)
  }

  /** The palette byte write as OAM's shows it was meant: both cells of the halfword. */
  function PaletteWrite8Spec(c: seq<bv8>, addr: bv32, v: bv8): (c': seq<bv8>)
    requires |c| == PALETTE_SIZE
    ensures |c'| == PALETTE_SIZE
  {
    OamWrite8Spec(c, addr, v)
  }

  /** Same-width write then read at the same address round-trips, for 16 and 32 bits. */
  lemma SmallWrite16ThenRead16(c: seq<bv8>, addr: bv32, v: bv16)
    requires |c| == OAM_SIZE
    ensures SmallRead16Spec(SmallWrite16Spec(c, addr, v), addr) == v
  {
    SmallIndicesInRange(addr);
    Store16ThenLoad16(c, SmallIndex16(addr), v);
  }

  lemma SmallWrite32ThenRead32(c: seq<bv8>, addr: bv32, v: bv32)
    requires |c| == OAM_SIZE
    ensures SmallRead32Spec(SmallWrite32Spec(c, addr, v), addr) == v
  {
    SmallIndicesInRange(addr);
    Store32ThenLoad32(c, SmallIndex32(addr), v);
  }

  /** Little-endian: a word is the halfword at its address below the halfword two bytes up. */
  lemma SmallRead32LittleEndian(c: seq<bv8>, addr: bv32)
    requires |c| == OAM_SIZE
    ensures SmallIndex32(addr) + 3 < |c|
    ensures SmallRead32Spec(c, addr) == Join16(Load16(c, SmallIndex32(addr)), Load16(c, SmallIndex32(addr) + 2))
  {
    SmallIndicesInRange(addr);
    Load32Halves(c, SmallIndex32(addr));
  }

  /** An OAM byte write reads back as a halfword holding the byte twice, and only that halfword changes. */
  lemma OamWrite8Halfword(c: seq<bv8>, addr: bv32, v: bv8, j: nat)
    requires |c| == OAM_SIZE && j < |c|
    ensures SmallRead16Spec(OamWrite8Spec(c, addr, v), addr) == Join8(v, v)
    ensures j != SmallIndex16(addr) && j != SmallIndex16(addr) + 1 ==> OamWrite8Spec(c, addr, v)[j] == c[j]
  {
    SmallIndicesInRange(addr);
    StoreTwiceIsStore16(c, SmallIndex16(addr), v);
    Store16ThenLoad16(c, SmallIndex16(addr), Join8(v, v));
  }

  /** The corrected palette byte write has no precondition and changes only the halfword it addresses. */
  lemma PaletteWrite8Halfword(c: seq<bv8>, addr: bv32, v: bv8, j: nat)
    requires |c| == PALETTE_SIZE && j < |c|
    ensures SmallRead16Spec(PaletteWrite8Spec(c, addr, v), addr) == Join8(v, v)
    ensures j != SmallIndex16(addr) && j != SmallIndex16(addr) + 1 ==> PaletteWrite8Spec(c, addr, v)[j] == c[j]
  {
    OamWrite8Halfword(c, addr, v, j);
  }

  /** As written, a palette byte write at an odd address also overwrites the low byte of the next colour. */
  lemma PaletteWrite8AsWrittenSpills(c: seq<bv8>)
    requires |c| == PALETTE_SIZE
    ensures SmallIndex8(0x0500_0001) == 1 && SmallIndex16(0x0500_0001) == 0
    ensures PaletteWrite8AsWritten(c, 0x0500_0001, 0xab)[2] == 0xab
  {
  }

  /** As written, a palette byte write to the last byte would store one cell past the array. */
  lemma PaletteWrite8AsWrittenOverruns()
    ensures SmallIndex8(0x0500_03ff) + 1 == PALETTE_SIZE
  {
  }

  // -------------------------------------------------------------------
  // VRAM

  /** `gpuVramComputeAddress`: with bit 16 set keep 15 bits and bit 16, else 16 bits. */
  function VramComputeAddress(addr: bv32): bv32 {
    if addr & 0x0001_0000 != 0 then addr & 0x0001_7fff else addr & 0x0000_ffff
  }

  /** Every computed address is below 0x18000. */
  lemma VramAddressInRange(addr: bv32)
    ensures Unsigned(VramComputeAddress(addr)) < VRAM_SIZE
  {
    if addr & 0x0001_0000 != 0 {
      HighBankBelow(addr);
    } else {
      LowBanksBelow(addr);
    }
  }

  lemma HighBankBelow(addr: bv32)
    ensures Unsigned(addr & 0x0001_7fff) < VRAM_SIZE
  {
    UnsignedMasked(addr, 0x0001_7fff);
    assert Unsigned(0x0001_7fff) == 98303;
  }

  lemma LowBanksBelow(addr: bv32)
    ensures Unsigned(addr & 0x0000_ffff) < VRAM_SIZE
  {
    UnsignedMasked(addr, 0x0000_ffff);
    assert Unsigned(0x0000_ffff) == 65535;
  }

  /** The upper 32 KB of the 128 KB window mirror the third bank. */
  lemma VramUpperMirror(addr: bv32)
    requires addr & 0x0001_8000 == 0x0001_8000
    ensures VramComputeAddress(addr) == VramComputeAddress(addr & 0xffff_7fff)
  {
  }

  /** Addresses 128 KB apart reach the same cell. */
  lemma VramWindowMirror(addr: bv32)
    ensures VramComputeAddress(addr + 0x0002_0000) == VramComputeAddress(addr)
  {
  }

  function VramIndex8(addr: bv32): nat { Unsigned(VramComputeAddress(addr & 0x0001_ffff)) }
  function VramIndex16(addr: bv32): nat { Unsigned(VramComputeAddress(addr & 0x0001_fffe)) }
  function VramIndex32(addr: bv32): nat { Unsigned(VramComputeAddress(addr & 0x0001_fffc)) }

  /** The cell `gpuVramWrite8` starts at: the computed address of the unmasked address. */
  function VramIndexWrite8(addr: bv32): nat { Unsigned(VramComputeAddress(addr)) }

  /** The halfword and word accesses stay inside the array. */
  lemma VramIndicesInRange(addr: bv32)
    ensures VramIndex8(addr) < VRAM_SIZE
    ensures VramIndex16(addr) + 1 < VRAM_SIZE
    ensures VramIndex32(addr) + 3 < VRAM_SIZE
  {
    VramAddressInRange(addr & 0x0001_ffff);
    VramHalfInRange(addr);
    VramWordInRange(addr);
  }

  lemma VramHalfInRange(addr: bv32)
    ensures VramIndex16(addr) + 1 < VRAM_SIZE
  {
    if addr & 0x0001_0000 != 0 {
      VramHalfHigh(addr);
      UnsignedMasked(addr, 0x0001_7ffe);
      assert Unsigned(0x0001_7ffe) == 98302;
    } else {
      VramHalfLow(addr);
      UnsignedMasked(addr, 0x0000_fffe);
      assert Unsigned(0x0000_fffe) == 65534;
    }
  }

  lemma VramHalfHigh(addr: bv32)
    requires addr & 0x0001_0000 != 0
    ensures VramComputeAddress(addr & 0x0001_fffe) == addr & 0x0001_7ffe
  {
  }

  lemma VramHalfLow(addr: bv32)
    requires addr & 0x0001_0000 == 0
    ensures VramComputeAddress(addr & 0x0001_fffe) == addr & 0x0000_fffe
  {
  }

  lemma VramWordInRange(addr: bv32)
    ensures VramIndex32(addr) + 3 < VRAM_SIZE
  {
    if addr & 0x0001_0000 != 0 {
      VramWordHigh(addr);
      UnsignedMasked(addr, 0x0001_7ffc);
      assert Unsigned(0x0001_7ffc) == 98300;
    } else {
      VramWordLow(addr);
      UnsignedMasked(addr, 0x0000_fffc);
      assert Unsigned(0x0000_fffc) == 65532;
    }
  }

  lemma VramWordHigh(addr: bv32)
    requires addr & 0x0001_0000 != 0
    ensures VramComputeAddress(addr & 0x0001_fffc) == addr & 0x0001_7ffc
  {
  }

  lemma VramWordLow(addr: bv32)
    requires addr & 0x0001_0000 == 0
    ensures VramComputeAddress(addr & 0x0001_fffc) == addr & 0x0000_fffc
  {
  }

  function VramRead8Spec(c: seq<bv8>, addr: bv32): bv8
    requires |c| == VRAM_SIZE
  {
    VramIndicesInRange(addr);
    c[VramIndex8(addr)]
  }

  function VramRead16Spec(c: seq<bv8>, addr: bv32): bv16
    requires |c| == VRAM_SIZE
  {
    VramIndicesInRange(addr);
    Load16(c, VramIndex16(addr))
  }

  function VramRead32Spec(c: seq<bv8>, addr: bv32): bv32
    requires |c| == VRAM_SIZE
  {
    VramIndicesInRange(addr);
    Load32(c, VramIndex32(addr))
  }

  function VramWrite16Spec(c: seq<bv8>, addr: bv32, v: bv16): (c': seq<bv8>)
    requires |c| == VRAM_SIZE
    ensures |c'| == VRAM_SIZE
  {
    VramIndicesInRange(addr);
    Store16(c, VramIndex16(addr), v)
  }

  function VramWrite32Spec(c: seq<bv8>, addr: bv32, v: bv32): (c': seq<bv8>)
    requires |c| == VRAM_SIZE
    ensures |c'| == VRAM_SIZE
  {
    VramIndicesInRange(addr);
    Store32(c, VramIndex32(addr), v)
  }

  /** `gpuVramWrite8` as written: the two cells start at the computed address itself. */
  function VramWrite8AsWritten(c: seq<bv8>, addr: bv32, v: bv8): (c': seq<bv8>)
    requires |c| == VRAM_SIZE && VramIndexWrite8(addr) + 1 < VRAM_SIZE
    ensures |c'| == VRAM_SIZE
  {
    StoreTwice(c, VramIndexWrite8(addr), v)
  }

  /** The VRAM byte write as meant: both cells of the halfword the address is in. */
  function VramWrite8Spec(c: seq<bv8>, addr: bv32, v: bv8): (c': seq<bv8>)
    requires |c| == VRAM_SIZE
    ensures |c'| == VRAM_SIZE
  {
    VramIndicesInRange(addr);
    StoreTwice(c, VramIndex16(addr), v)
  }

  lemma VramWrite16ThenRead16(c: seq<bv8>, addr: bv32, v: bv16)
    requires |c| == VRAM_SIZE
    ensures VramRead16Spec(VramWrite16Spec(c, addr, v), addr) == v
  {
    VramIndicesInRange(addr);
    Store16ThenLoad16(c, VramIndex16(addr), v);
  }

  lemma VramWrite32ThenRead32(c: seq<bv8>, addr: bv32, v: bv32)
    requires |c| == VRAM_SIZE
    ensures VramRead32Spec(VramWrite32Spec(c, addr, v), addr) == v
  {
    VramIndicesInRange(addr);
    Store32ThenLoad32(c, VramIndex32(addr), v);
  }

  /** The corrected VRAM byte write has no precondition and reads back as the byte twice. */
  lemma VramWrite8Halfword(c: seq<bv8>, addr: bv32, v: bv8, j: nat)
    requires |c| == VRAM_SIZE && j < |c|
    ensures VramRead16Spec(VramWrite8Spec(c, addr, v), addr) == Join8(v, v)
    ensures j != VramIndex16(addr) && j != VramIndex16(addr) + 1 ==> VramWrite8Spec(c, addr, v)[j] == c[j]
  {
    VramIndicesInRange(addr);
    StoreTwiceIsStore16(c, VramIndex16(addr), v);
    Store16ThenLoad16(c, VramIndex16(addr), Join8(v, v));
  }

  /** As written, a VRAM byte write at an odd address also overwrites the next halfword's low byte. */
  lemma VramWrite8AsWrittenSpills(c: seq<bv8>)
    requires |c| == VRAM_SIZE
    ensures VramIndexWrite8(0x0600_0001) == 1 && VramIndex16(0x0600_0001) == 0
    ensures VramWrite8AsWritten(c, 0x0600_0001, 0xab)[2] == 0xab
  {
  }

  /** As written, a VRAM byte write to the last byte would store one cell past the array. */
  lemma VramWrite8AsWrittenOverruns()
    ensures VramIndexWrite8(0x0601_7fff) + 1 == VRAM_SIZE
  {
  }

  /** The three static arrays of gpu.c. */
  class Gpu {
    const oam: array<bv8>
    const palette: array<bv8>
    const vram: array<bv8>

    ghost predicate Valid()
      reads this
    {
      oam.Length == OAM_SIZE && palette.Length == PALETTE_SIZE && vram.Length == VRAM_SIZE &&
      oam != palette && oam != vram && palette != vram
    }

    /** The zero-initialised static arrays. */
    constructor ()
      ensures Valid() && fresh(oam) && fresh(palette) && fresh(vram)
    {
      oam := new bv8[OAM_SIZE](_ => 0);
      palette := new bv8[PALETTE_SIZE](_ => 0);
      vram := new bv8[VRAM_SIZE](_ => 0);
    }

    /** `gpuReset`: zeroes all three arrays. */
    method Reset()
      requires Valid()
      modifies oam, palette, vram
      ensures forall k :: 0 <= k < OAM_SIZE ==> oam[k] == 0 && palette[k] == 0
      ensures forall k :: 0 <= k < VRAM_SIZE ==> vram[k] == 0
    {
      Zero(oam);
      Zero(palette);
      Zero(vram);
    }

    method OamRead8(addr: bv32) returns (v: bv8)
      requires Valid()
      ensures v == SmallRead8Spec(oam[..], addr)
    {
      SmallIndicesInRange(addr);
      v := oam[SmallIndex8(addr)];
    }

    method OamRead16(addr: bv32) returns (v: bv16)
      requires Valid()
      ensures v == SmallRead16Spec(oam[..], addr)
    {
      SmallIndicesInRange(addr);
      v := Load16At(oam, SmallIndex16(addr));
    }

    method OamRead32(addr: bv32) returns (v: bv32)
      requires Valid()
      ensures v == SmallRead32Spec(oam[..], addr)
    {
      SmallIndicesInRange(addr);
      v := Load32At(oam, SmallIndex32(addr));
    }

    method OamWrite8(addr: bv32, v: bv8)
      requires Valid()
      modifies oam
      ensures oam[..] == OamWrite8Spec(old(oam[..]), addr, v)
    {
      SmallIndicesInRange(addr);
      StoreTwiceAt(oam, SmallIndex16(addr), v);
    }

    method OamWrite16(addr: bv32, v: bv16)
      requires Valid()
      modifies oam
      ensures oam[..] == SmallWrite16Spec(old(oam[..]), addr, v)
    {
      SmallIndicesInRange(addr);
      Store16At(oam, SmallIndex16(addr), v);
    }

    method OamWrite32(addr: bv32, v: bv32)
      requires Valid()
      modifies oam
      ensures oam[..] == SmallWrite32Spec(old(oam[..]), addr, v)
    {
      SmallIndicesInRange(addr);
      Store32At(oam, SmallIndex32(addr), v);
    }

    method PaletteRead8(addr: bv32) returns (v: bv8)
      requires Valid()
      ensures v == SmallRead8Spec(palette[..], addr)
    {
      SmallIndicesInRange(addr);
      v := palette[SmallIndex8(addr)];
    }

    method PaletteRead16(addr: bv32) returns (v: bv16)
      requires Valid()
      ensures v == SmallRead16Spec(palette[..], addr)
    {
      SmallIndicesInRange(addr);
      v := Load16At(palette, SmallIndex16(addr));
    }

    method PaletteRead32(addr: bv32) returns (v: bv32)
      requires Valid()
      ensures v == SmallRead32Spec(palette[..], addr)
    {
      SmallIndicesInRange(addr);
      v := Load32At(palette, SmallIndex32(addr));
    }

    /** `gpuPaletteWrite8` as written; the last byte of the array would overrun it. */
    method PaletteWrite8(addr: bv32, v: bv8)
      requires Valid() && SmallIndex8(addr) + 1 < PALETTE_SIZE
      modifies palette
      ensures palette[..] == PaletteWrite8AsWritten(old(palette[..]), addr, v)
    {
      StoreTwiceAt(palette, SmallIndex8(addr), v);
    }

    method PaletteWrite16(addr: bv32, v: bv16)
      requires Valid()
      modifies palette
      ensures palette[..] == SmallWrite16Spec(old(palette[..]), addr, v)
    {
      SmallIndicesInRange(addr);
      Store16At(palette, SmallIndex16(addr), v);
    }

    method PaletteWrite32(addr: bv32, v: bv32)
      requires Valid()
      modifies palette
      ensures palette[..] == SmallWrite32Spec(old(palette[..]), addr, v)
    {
      SmallIndicesInRange(addr);
      Store32At(palette, SmallIndex32(addr), v);
    }

    method VramRead8(addr: bv32) returns (v: bv8)
      requires Valid()
      ensures v == VramRead8Spec(vram[..], addr)
    {
      VramIndicesInRange(addr);
      v := vram[VramIndex8(addr)];
    }

    method VramRead16(addr: bv32) returns (v: bv16)
      requires Valid()
      ensures v == VramRead16Spec(vram[..], addr)
    {
      VramIndicesInRange(addr);
      v := Load16At(vram, VramIndex16(addr));
    }

    method VramRead32(addr: bv32) returns (v: bv32)
      requires Valid()
      ensures v == VramRead32Spec(vram[..], addr)
    {
      VramIndicesInRange(addr);
      v := Load32At(vram, VramIndex32(addr));
    }

    /** `gpuVramWrite8` as written; the last byte of the array would overrun it. */
    method VramWrite8(addr: bv32, v: bv8)
      requires Valid() && VramIndexWrite8(addr) + 1 < VRAM_SIZE
      modifies vram
      ensures vram[..] == VramWrite8AsWritten(old(vram[..]), addr, v)
    {
      StoreTwiceAt(vram, VramIndexWrite8(addr), v);
    }

    method VramWrite16(addr: bv32, v: bv16)
      requires Valid()
      modifies vram
      ensures vram[..] == VramWrite16Spec(old(vram[..]), addr, v)
    {
      VramIndicesInRange(addr);
      Store16At(vram, VramIndex16(addr), v);
    }

    method VramWrite32(addr: bv32, v: bv32)
      requires Valid()
      modifies vram
      ensures vram[..] == VramWrite32Spec(old(vram[..]), addr, v)
    {
      VramIndicesInRange(addr);
      Store32At(vram, VramIndex32(addr), v);
    }
  }
}
