// What `drawLine` of src/gbaemu/gba/lcd.cpp (lines 52-177) puts into one
// row of the frame buffer, as functions of the video memory and the I/O
// table.
//
// The frame buffer holds, per pixel, either a palette index (what is
// handed to `getPaletteColor`) or a 15-bit colour (what is handed to
// `colorToRgb`); neither conversion is part of this model. The screen is
// the GBA's 240 x 160 pixels. Halfwords are read from the video memory
// with the low byte first, as on the little-endian hosts the code runs on.
// The code masks non-negative `int`s with 0xff, 0x1ff and 0x3ff, written
// here as the remainders modulo 256, 512 and 1024.

module CppDraw {
  import opened CppIo

  const VRAM_SIZE: nat := 98304
  const SCREEN_WIDTH: nat := 240
  const SCREEN_HEIGHT: nat := 160
  const FRAME_SIZE: nat := SCREEN_WIDTH * SCREEN_HEIGHT

  /** A frame buffer entry: a palette index or a direct colour. */
  datatype Pixel = Palette(index: bv8) | Direct(color: bv16)

  // ------------------------------------------------------------ DISPCNT

  /** `dispcnt.fields.bgMode`, bits 2-0. */
  function BgMode(dispcnt: bv16): (mode: nat)
    ensures mode < 8
  {
    (dispcnt & 7) as nat
  }

  /** `dispcnt.fields.displayFrameSelect`, bit 4. */
  predicate FrameSelect(dispcnt: bv16) {
    dispcnt & 0x10 != 0
  }

  /** `1 << (8 + layer)`: the enable bits of the four layers. */
  function LayerBit(layer: nat): bv16
    requires layer < 4
  {
    if layer == 0 then 0x100 else if layer == 1 then 0x200 else if layer == 2 then 0x400 else 0x800
  }

  predicate LayerEnabled(dispcnt: bv16, layer: nat)
    requires layer < 4
  {
    dispcnt & LayerBit(layer) != 0
  }

  // ------------------------------------------------------------ BGxCNT

  /** The fields of `bgcnt_t` that `drawLayer` uses. */
  datatype Bgcnt = Bgcnt(tileBase: nat, colors: bool, mapBase: nat, screenSize: nat)

  predicate ValidBgcnt(c: Bgcnt) {
    c.tileBase < 4 && c.mapBase < 32 && c.screenSize < 4
  }

  /** Tile base bits 3-2, colour depth bit 7, map base bits 12-8, screen size bits 15-14. */
  function DecodeBgcnt(v: bv16): (c: Bgcnt)
    ensures ValidBgcnt(c)
  {
    Bgcnt(((v >> 2) & 3) as nat, v & 0x80 != 0, ((v >> 8) & 0x1f) as nat, (v >> 14) as nat)
  }

  /** The layer is 512 pixels wide when bit 0 of the screen size is set, 256 otherwise. */
  function LayerWidth(size: nat): nat {
    if size % 2 == 1 then 512 else 256
  }

  /** The layer is 512 pixels high when bit 1 of the screen size is set, 256 otherwise. */
  function LayerHeight(size: nat): nat {
    if (size / 2) % 2 == 1 then 512 else 256
  }

  /** `1 << yMapShift`: the bytes of one row of map entries. */
  function MapRowBytes(size: nat): nat {
    if size % 2 == 1 then 128 else 64
  }

  /** `1 << mapTileShift`: the bytes of one tile, 32 at 4 bits per pixel, 64 at 8. */
  function TileBytes(c: Bgcnt): nat {
    if c.colors then 64 else 32
  }

  /** `mapValueMask` + 1: the tile numbers a map entry can name. */
  function TileCount(c: Bgcnt): nat {
    if c.colors then 512 else 1024
  }

  /** `access16(vram, a)`: the halfword at byte `a`, low byte first. */
  function Join(lo: bv8, hi: bv8): bv16 {
    (lo as bv16) | ((hi as bv16) << 8)
  }

  function VramHalf(vram: seq<bv8>, a: nat): bv16
    requires a + 1 < |vram|
  {
    Join(vram[a], vram[a + 1])
  }

  /** The address of the map entry of layer pixel (`x`, `y`): two bytes, inside the video memory. */
  function MapEntryAddress(c: Bgcnt, x: nat, y: nat): (a: nat)
    requires ValidBgcnt(c) && x < 512 && y < 512
    ensures a % 2 == 0 && a + 1 < VRAM_SIZE
  {
    c.mapBase * 2048 + (y / 8) * MapRowBytes(c.screenSize) + (x / 8) * 2
  }

  /** The tile number in a map entry. */
  function TileNumber(c: Bgcnt, entry: bv16): (tile: nat)
    ensures tile < TileCount(c)
  {
    (entry as nat) % TileCount(c)
  }

  /** The first byte of tile `tile`. */
  function TileStart(c: Bgcnt, tile: nat): nat {
    c.tileBase * 16384 + tile * TileBytes(c)
  }

  /** The byte holding pixel (`x` % 8, `y` % 8) of tile `tile`: inside that tile and inside the video memory. */
  function TileByteAddress(c: Bgcnt, tile: nat, x: nat, y: nat): (a: nat)
    requires ValidBgcnt(c) && tile < TileCount(c)
    ensures TileStart(c, tile) <= a < TileStart(c, tile) + TileBytes(c)
    ensures a < VRAM_SIZE
  {
    if c.colors then TileStart(c, tile) + (y % 8) * 8 + x % 8
    else TileStart(c, tile) + (y % 8) * 4 + (x % 8) / 2
  }

  /** The palette index of a pixel from its tile byte: the byte, or one of its halves at 4 bits per pixel. */
  function PixelValue(c: Bgcnt, v: bv8, x: nat): (p: bv8)
    ensures !c.colors ==> p < 16
  {
    if c.colors then v
    else if (x % 8) % 2 == 1 then v >> 4
    else v & 0x0f
  }

  /** The palette index at screen column `x` of layer `c` scrolled by (`hofs`, `vofs`) on row `row`. */
  function LayerPixel(vram: seq<bv8>, c: Bgcnt, hofs: nat, vofs: nat, row: nat, x: nat): bv8
    requires |vram| == VRAM_SIZE && ValidBgcnt(c)
  {
    var xLayer := (hofs + x) % LayerWidth(c.screenSize);
    var yLayer := (row + vofs) % LayerHeight(c.screenSize);
    var tile := TileNumber(c, VramHalf(vram, MapEntryAddress(c, xLayer, yLayer)));
    PixelValue(c, vram[TileByteAddress(c, tile, xLayer, yLayer)], xLayer)
  }

  /** One row of a text layer. */
  function LayerLine(vram: seq<bv8>, c: Bgcnt, hofs: nat, vofs: nat, row: nat): (line: seq<Pixel>)
    requires |vram| == VRAM_SIZE && ValidBgcnt(c)
    ensures |line| == SCREEN_WIDTH
  {
    seq(SCREEN_WIDTH, x requires 0 <= x < SCREEN_WIDTH => Palette(LayerPixel(vram, c, hofs, vofs, row, x)))
  }

  /**
   * The I/O offset of a scroll register of layer `layer`: as written the
   * layers are 2 bytes apart, which is the distance between a layer's
   * horizontal and vertical offsets; corrected, 4.
   */
  function ScrollIndex(base: nat, layer: nat, corrected: bool): nat {
    base + (if corrected then 4 else 2) * layer
  }

  /** `drawLayer(layer)`'s row, from the registers of the layer. */
  function LayerLineOf(vram: seq<bv8>, table: seq<Entry>, layer: nat, row: nat, corrected: bool): (line: seq<Pixel>)
    requires |vram| == VRAM_SIZE && Shaped(table) && layer < 4
    ensures |line| == SCREEN_WIDTH
  {
    LayerLine(vram, DecodeBgcnt(GetSpec(table, BG0CNT + 2 * layer)),
              GetSpec(table, ScrollIndex(BG0HOFS, layer, corrected)) as nat,
              GetSpec(table, ScrollIndex(BG0VOFS, layer, corrected)) as nat, row)
  }

  // ------------------------------------------------------ bitmap modes

  /** Mode 3: 240 direct colours per row. */
  function Mode3Line(vram: seq<bv8>, row: nat): (line: seq<Pixel>)
    requires |vram| == VRAM_SIZE && row < SCREEN_HEIGHT
    ensures |line| == SCREEN_WIDTH
  {
    seq(SCREEN_WIDTH, x requires 0 <= x < SCREEN_WIDTH => Direct(VramHalf(vram, 2 * (row * SCREEN_WIDTH + x))))
  }

  /** The byte offset of the mode 4 page: 0xa000 for the second. */
  function Mode4Offset(dispcnt: bv16): nat {
    if FrameSelect(dispcnt) then 0xa000 else 0
  }

  /** Mode 4: 240 palette indices per row, from the selected page. */
  function Mode4Line(vram: seq<bv8>, row: nat, offset: nat): (line: seq<Pixel>)
    requires |vram| == VRAM_SIZE && row < SCREEN_HEIGHT && offset <= 0xa000
    ensures |line| == SCREEN_WIDTH
  {
    seq(SCREEN_WIDTH, x requires 0 <= x < SCREEN_WIDTH => Palette(vram[row * SCREEN_WIDTH + x + offset]))
  }

  /** The halfword offset of the mode 5 page: 0x5000 for the second. */
  function Mode5Offset(dispcnt: bv16): nat {
    if FrameSelect(dispcnt) then 0x5000 else 0
  }

  /** Mode 5: 160 direct colours on each of the first 128 rows, nothing below. */
  function Mode5Line(vram: seq<bv8>, row: nat, offset: nat): (line: seq<Pixel>)
    requires |vram| == VRAM_SIZE && row < SCREEN_HEIGHT && offset <= 0x5000
    ensures |line| <= SCREEN_WIDTH
  {
    if row < 128 then
      seq(160, x requires 0 <= x < 160 => Direct(VramHalf(vram, 2 * (row * 160 + x + offset))))
    else []
  }

  // ------------------------------------------------------- frame buffer

  /** The frame buffer with `pixels` written from the start of row `row`. */
  function WriteRow(frame: seq<Pixel>, row: nat, pixels: seq<Pixel>): (f: seq<Pixel>)
    requires |frame| == FRAME_SIZE && row < SCREEN_HEIGHT && |pixels| <= SCREEN_WIDTH
    ensures |f| == FRAME_SIZE
  {
    seq(FRAME_SIZE, k requires 0 <= k < FRAME_SIZE =>
      if row * SCREEN_WIDTH <= k < row * SCREEN_WIDTH + |pixels| then pixels[k - row * SCREEN_WIDTH] else frame[k])
  }

  /** Mode 0 from layer `layer` on: each enabled layer is drawn over the row, in index order. */
  function Mode0From(frame: seq<Pixel>, vram: seq<bv8>, table: seq<Entry>, dispcnt: bv16, row: nat, layer: nat, corrected: bool): (f: seq<Pixel>)
    requires |frame| == FRAME_SIZE && |vram| == VRAM_SIZE && Shaped(table) && row < SCREEN_HEIGHT && layer <= 4
    ensures |f| == FRAME_SIZE
    decreases 4 - layer
  {
    if layer == 4 then frame
    else
      var next := if LayerEnabled(dispcnt, layer) then WriteRow(frame, row, LayerLineOf(vram, table, layer, row, corrected)) else frame;
      Mode0From(next, vram, table, dispcnt, row, layer + 1, corrected)
  }

  /** `drawLine`: the frame buffer after row `row` is drawn in the mode DISPCNT selects. */
  function LineSpec(frame: seq<Pixel>, vram: seq<bv8>, table: seq<Entry>, row: nat, corrected: bool): (f: seq<Pixel>)
    requires |frame| == FRAME_SIZE && |vram| == VRAM_SIZE && Shaped(table) && row < SCREEN_HEIGHT
    ensures |f| == FRAME_SIZE
  {
    var dispcnt := GetSpec(table, DISPCNT);
    var mode := BgMode(dispcnt);
    if mode <= 2 then Mode0From(frame, vram, table, dispcnt, row, 0, corrected)
    else if mode == 3 then WriteRow(frame, row, Mode3Line(vram, row))
    else if mode == 4 then WriteRow(frame, row, Mode4Line(vram, row, Mode4Offset(dispcnt)))
    else if mode == 5 then WriteRow(frame, row, Mode5Line(vram, row, Mode5Offset(dispcnt)))
    else frame
  }

  // --------------------------------------------------------- properties

  /** Writing one more pixel extends the written row by that pixel. */
  lemma WriteRowStep(frame: seq<Pixel>, row: nat, pixels: seq<Pixel>, p: Pixel)
    requires |frame| == FRAME_SIZE && row < SCREEN_HEIGHT && |pixels| < SCREEN_WIDTH
    ensures WriteRow(frame, row, pixels)[row * SCREEN_WIDTH + |pixels| := p] == WriteRow(frame, row, pixels + [p])
  {
  }

  /** A row write changes that row only, and only its first |pixels| entries. */
  lemma WriteRowFrame(frame: seq<Pixel>, row: nat, pixels: seq<Pixel>, k: nat)
    requires |frame| == FRAME_SIZE && row < SCREEN_HEIGHT && |pixels| <= SCREEN_WIDTH && k < FRAME_SIZE
    ensures WriteRow(frame, row, pixels)[k] != frame[k] ==> row * SCREEN_WIDTH <= k < row * SCREEN_WIDTH + |pixels|
  {
  }

  /** Scrolling a layer by its whole width or height shows the same row: the layer wraps around. */
  lemma LayerWraps(vram: seq<bv8>, c: Bgcnt, hofs: nat, vofs: nat, row: nat, x: nat)
    requires |vram| == VRAM_SIZE && ValidBgcnt(c)
    ensures LayerPixel(vram, c, hofs + LayerWidth(c.screenSize), vofs, row, x) == LayerPixel(vram, c, hofs, vofs, row, x)
    ensures LayerPixel(vram, c, hofs, vofs + LayerHeight(c.screenSize), row, x) == LayerPixel(vram, c, hofs, vofs, row, x)
  {
    ModShift(hofs + x, LayerWidth(c.screenSize));
    ModShift(row + vofs, LayerHeight(c.screenSize));
    assert hofs + LayerWidth(c.screenSize) + x == (hofs + x) + LayerWidth(c.screenSize);
    assert row + (vofs + LayerHeight(c.screenSize)) == (row + vofs) + LayerHeight(c.screenSize);
  }

  /** Masking before the increment does not change the position modulo the layer size. */
  lemma ModStep(a: nat, w: nat)
    requires w == 256 || w == 512
    ensures (a % w + 1) % w == (a + 1) % w
  {
  }

  lemma ModShift(a: nat, w: nat)
    requires w == 256 || w == 512
    ensures (a + w) % w == a % w
  {
    if w == 256 {
      assert (a + 256) % 256 == a % 256;
    } else {
      assert (a + 512) % 512 == a % 512;
    }
  }

  /** The layer sizes are 256 or 512 in each direction, chosen by the two screen-size bits. */
  lemma LayerSizes(c: Bgcnt)
    requires ValidBgcnt(c)
    ensures LayerWidth(c.screenSize) == (if c.screenSize == 1 || c.screenSize == 3 then 512 else 256)
    ensures LayerHeight(c.screenSize) == (if c.screenSize >= 2 then 512 else 256)
  {
  }

  /**
   * The two mode 4 pages do not overlap and lie inside the video memory:
   * every pixel of the first page lies below 0xa000, and the second page,
   * which frame select picks, starts at 0xa000.
   */
  lemma Mode4Pages(vram: seq<bv8>, row: nat, x: nat)
    requires |vram| == VRAM_SIZE && row < SCREEN_HEIGHT && x < SCREEN_WIDTH
    ensures row * SCREEN_WIDTH + x < 0xa000
    ensures 0xa000 + row * SCREEN_WIDTH + x < VRAM_SIZE
    ensures Mode4Line(vram, row, Mode4Offset(0x0014))[x] == Palette(vram[0xa000 + row * SCREEN_WIDTH + x])
  {
  }

  /** Mode 5 leaves rows 128-159 as they were. */
  lemma Mode5LowerRows(frame: seq<Pixel>, vram: seq<bv8>, table: seq<Entry>, row: nat, corrected: bool)
    requires |frame| == FRAME_SIZE && |vram| == VRAM_SIZE && Shaped(table) && 128 <= row < SCREEN_HEIGHT
    requires BgMode(GetSpec(table, DISPCNT)) == 5
    ensures LineSpec(frame, vram, table, row, corrected) == frame
  {
  }

  /** Modes 6 and 7 draw nothing. */
  lemma NoSuchMode(frame: seq<Pixel>, vram: seq<bv8>, table: seq<Entry>, row: nat, corrected: bool)
    requires |frame| == FRAME_SIZE && |vram| == VRAM_SIZE && Shaped(table) && row < SCREEN_HEIGHT
    requires BgMode(GetSpec(table, DISPCNT)) >= 6
    ensures LineSpec(frame, vram, table, row, corrected) == frame
  {
  }

  /** The highest enabled layer below `layer`; -1 when there is none. */
  function TopLayer(dispcnt: bv16, layer: nat): (top: int)
    requires layer <= 4
    ensures -1 <= top < layer && (top >= 0 ==> LayerEnabled(dispcnt, top))
    ensures forall l :: top < l < layer ==> !LayerEnabled(dispcnt, l)
    decreases layer
  {
    if layer == 0 then -1
    else if LayerEnabled(dispcnt, layer - 1) then layer - 1
    else TopLayer(dispcnt, layer - 1)
  }

  /**
   * In modes 0-2 each pixel of the row comes from the highest-numbered
   * enabled layer, whatever the priorities; with no layer enabled the row
   * is kept.
   */
  lemma {:induction false} Mode0Top(frame: seq<Pixel>, vram: seq<bv8>, table: seq<Entry>, dispcnt: bv16, row: nat, layer: nat, corrected: bool, x: nat)
    requires |frame| == FRAME_SIZE && |vram| == VRAM_SIZE && Shaped(table) && row < SCREEN_HEIGHT && layer <= 4 && x < SCREEN_WIDTH
    ensures var k := row * SCREEN_WIDTH + x;
            var top := TopLayer(dispcnt, 4);
            Mode0From(frame, vram, table, dispcnt, row, layer, corrected)[k] ==
              if top >= layer then LayerLineOf(vram, table, top, row, corrected)[x] else frame[k]
    decreases 4 - layer
  {
    if layer < 4 {
      var line := LayerLineOf(vram, table, layer, row, corrected);
      var next := if LayerEnabled(dispcnt, layer) then WriteRow(frame, row, line) else frame;
      var k := row * SCREEN_WIDTH + x;
      var top := TopLayer(dispcnt, 4);
      Mode0Top(next, vram, table, dispcnt, row, layer + 1, corrected, x);
      assert Mode0From(frame, vram, table, dispcnt, row, layer, corrected) == Mode0From(next, vram, table, dispcnt, row, layer + 1, corrected);
      TopLayerAt(dispcnt, layer);
      if top == layer {
        WriteRowAt(frame, row, line, x);
      }
    }
  }

  /** A row write puts pixel `x` at column `x` of the row. */
  lemma WriteRowAt(frame: seq<Pixel>, row: nat, pixels: seq<Pixel>, x: nat)
    requires |frame| == FRAME_SIZE && row < SCREEN_HEIGHT && |pixels| <= SCREEN_WIDTH && x < |pixels|
    ensures WriteRow(frame, row, pixels)[row * SCREEN_WIDTH + x] == pixels[x]
  {
  }

  /** Layer `layer` is enabled when it is the top layer, and disabled when the top layer is below it. */
  lemma TopLayerAt(dispcnt: bv16, layer: nat)
    requires layer < 4
    ensures TopLayer(dispcnt, 4) == layer ==> LayerEnabled(dispcnt, layer)
    ensures TopLayer(dispcnt, 4) < layer ==> !LayerEnabled(dispcnt, layer)
  {
  }

  /** As written, layer 1's horizontal offset is read from BG0VOFS, and its vertical offset from BG1HOFS. */
  lemma ScrollStrideAsWritten()
    ensures ScrollIndex(BG0HOFS, 1, false) == BG0VOFS
    ensures ScrollIndex(BG0VOFS, 1, false) == BG0HOFS + 4
  {
  }

  /** Corrected, the eight scroll registers of the four layers are distinct and lie in 0x10-0x1e. */
  lemma ScrollStrideCorrected(a: nat, b: nat)
    requires a < 4 && b < 4
    ensures ScrollIndex(BG0HOFS, a, true) != ScrollIndex(BG0VOFS, b, true)
    ensures a != b ==> ScrollIndex(BG0HOFS, a, true) != ScrollIndex(BG0HOFS, b, true)
    ensures 0x10 <= ScrollIndex(BG0HOFS, a, true) && ScrollIndex(BG0VOFS, a, true) <= 0x1e
  {
  }
}
