// src/gbaemu/gba/lcd.cpp: the display of the C++ core. `cycle` is called
// once per machine cycle: every fourth call advances the beam one column;
// 308 columns make a row and 228 rows a frame. On the way it keeps the
// DISPSTAT flags, VCOUNT and the interrupt requests up to date through the
// I/O table's back door (`io::set` / `io::get`), and at the start of the
// horizontal blank of a visible row it draws that row.
//
// The layouts of `dispstat_t`, `bgcnt_t` and the `cpu::IRQ_*` bits are not
// part of this model's sources; the GBA's own register layout is used:
// DISPSTAT bits 0-5 are the V-blank, H-blank and V-counter flags and their
// interrupt enables, bits 15-8 the V-count setting; BGxCNT bits 1-0 are the
// priority, 3-2 the tile base, 7 the colour depth, 12-8 the map base and
// 15-14 the screen size; the interrupt bits are V-blank 1, H-blank 2 and
// V-counter 4.
//
// Several operations take `corrected`: false runs the code as written,
// true the repaired version (see the lemmas marked "As written").

module CppLcd {
  import opened Bits
  import opened CppIo
  import Sort = CppLayerSort
  import Draw = CppDraw

  const IRQ_VBLANK: bv16 := 0x0001
  const IRQ_HBLANK: bv16 := 0x0002
  const IRQ_VCOUNTER: bv16 := 0x0004

  const COLUMNS: nat := 308
  const ROWS: nat := 228
  const VISIBLE_COLUMNS: nat := 240
  const VISIBLE_ROWS: nat := 160

  // ------------------------------------------------------------ DISPSTAT

  /** The fields of `dispstat_t`. */
  datatype Dispstat = Dispstat(vblank: bool, hblank: bool, vcounter: bool,
                               irqVblank: bool, irqHblank: bool, irqVcounter: bool,
                               unused: bv2, lyc: bv8)

  function FlagBit(b: bool, mask: bv16): bv16 {
    if b then mask else 0
  }

  /** `stat.value` from the fields. */
  function Encode(d: Dispstat): bv16 {
    FlagBit(d.vblank, 0x01) | FlagBit(d.hblank, 0x02) | FlagBit(d.vcounter, 0x04) |
    FlagBit(d.irqVblank, 0x08) | FlagBit(d.irqHblank, 0x10) | FlagBit(d.irqVcounter, 0x20) |
    ((d.unused as bv16) << 6) | ((d.lyc as bv16) << 8)
  }

  /** The fields of `stat.value`. */
  function Decode(v: bv16): Dispstat {
    Dispstat(v & 0x01 != 0, v & 0x02 != 0, v & 0x04 != 0, v & 0x08 != 0, v & 0x10 != 0, v & 0x20 != 0,
             ((v >> 6) & 3) as bv2, (v >> 8) as bv8)
  }

  /** Writing the fields and reading them back gives the same fields. */
  lemma DecodeEncode(d: Dispstat)
    ensures Decode(Encode(d)) == d
  {
  }

  /** Reading the fields and writing them back gives the same register value. */
  lemma EncodeDecode(v: bv16)
    ensures Encode(Decode(v)) == v
  {
  }

  /** The V-count setting, as a number. */
  function Lyc(d: Dispstat): (n: nat)
    ensures n < 0x100
  {
    d.lyc as nat
  }

  /** An unsigned row number passed as a 16-bit register value. */
  function RowValue(row: nat): bv16 {
    (row % 0x1_0000) as bv16
  }

  // ------------------------------------------------------------ timing

  /** `currentRow`, `currentColumn` and `cycleCounter`. */
  datatype Timing = Timing(row: nat, column: nat, counter: nat)

  predicate ValidTiming(t: Timing) {
    t.row < ROWS && t.column < COLUMNS
  }

  /** The cycle moves the beam. */
  predicate Moves(t: Timing) {
    t.counter % 4 == 3
  }

  /** The cycle moves the beam from column 307 to the next row. */
  predicate EndsRow(t: Timing) {
    Moves(t) && t.column + 1 == COLUMNS
  }

  /** The cycle moves the beam to column 240, where the horizontal blank begins. */
  predicate StartsHBlank(t: Timing) {
    Moves(t) && t.column + 1 == VISIBLE_COLUMNS
  }

  /** The beam position and counter after a cycle; as written, the frame restart leaves the counter at 1. */
  function NextTiming(t: Timing, corrected: bool): Timing
    requires ValidTiming(t)
  {
    if !Moves(t) then t.(counter := t.counter + 1)
    else if t.column + 1 < COLUMNS then Timing(t.row, t.column + 1, t.counter + 1)
    else if t.row + 1 < ROWS then Timing(t.row + 1, 0, t.counter + 1)
    else Timing(0, 0, if corrected then 0 else 1)
  }

  /**
   * The row that the V-counter flag is compared with on a new row: as
   * written, the incremented row before the wrap to 0 (228 at the end of a
   * frame); corrected, the row the beam is on.
   */
  function MatchedRow(row: nat, corrected: bool): nat {
    if corrected && row == ROWS then 0 else row
  }

  /** Whether the row a new row brings matches the V-count setting. */
  predicate Matches(t: Timing, d: Dispstat, corrected: bool) {
    MatchedRow(t.row + 1, corrected) == Lyc(d)
  }

  /** DISPSTAT when row `row` begins (228 before the wrap), given whether the row matches. */
  function StatOnNewRow(d: Dispstat, matched: bool, row: nat): Dispstat {
    d.(hblank := false, vcounter := matched,
       vblank := if row == ROWS then false else if row == VISIBLE_ROWS then true else d.vblank)
  }

  /** DISPSTAT after a cycle, from its fields before. */
  function NextStat(t: Timing, d: Dispstat, corrected: bool): Dispstat {
    if EndsRow(t) then StatOnNewRow(d, Matches(t, d, corrected), t.row + 1)
    else if StartsHBlank(t) then d.(hblank := true)
    else d
  }

  /**
   * The V-counter interrupt on a new row: as written, requested whenever
   * it is enabled; corrected, only when the row matches.
   */
  predicate RaisesVCounter(t: Timing, d: Dispstat, matched: bool, corrected: bool) {
    EndsRow(t) && d.irqVcounter && (!corrected || matched)
  }

  predicate RaisesVBlank(t: Timing, d: Dispstat) {
    EndsRow(t) && t.row + 1 == VISIBLE_ROWS && d.irqVblank
  }

  predicate RaisesHBlank(t: Timing, d: Dispstat) {
    StartsHBlank(t) && d.irqHblank
  }

  /** The interrupt bits a cycle requests. */
  function Requests(t: Timing, d: Dispstat, corrected: bool): bv16 {
    FlagBit(RaisesVCounter(t, d, Matches(t, d, corrected), corrected), IRQ_VCOUNTER) |
    FlagBit(RaisesVBlank(t, d), IRQ_VBLANK) |
    FlagBit(RaisesHBlank(t, d), IRQ_HBLANK)
  }

  // ------------------------------------------------------ the I/O table

  /** What a cycle leaves: the timing, the I/O table, whether it drew a row and whether it finished a frame. */
  datatype Cycled = Cycled(timing: Timing, table: seq<Entry>, drawLine: bool, frameDone: bool)

  /** The offset `set(IF, ...)` reaches: IE's, as written; IF's, corrected. */
  function InterruptIndex(corrected: bool): nat {
    if corrected then IF_OFFSET else IF
  }

  /** `io::set(io::IF, io::get(io::IF) | bits)`, when there are bits to set. */
  function Raise(table: seq<Entry>, bits: bv16, corrected: bool): (t': seq<Entry>)
    requires Shaped(table)
    ensures Shaped(t')
  {
    var i := InterruptIndex(corrected);
    if bits == 0 then table else SetSpec(table, i, GetSpec(table, i) | bits)
  }

  /**
   * The requests of a cycle, one `Raise` after the other in the order
   * `cycle` makes them.
   */
  function RaiseAll(table: seq<Entry>, t: Timing, d: Dispstat, matched: bool, corrected: bool): (t': seq<Entry>)
    requires Shaped(table)
    ensures Shaped(t')
  {
    var table1 := Raise(table, FlagBit(RaisesVCounter(t, d, matched, corrected), IRQ_VCOUNTER), corrected);
    var table2 := Raise(table1, FlagBit(RaisesVBlank(t, d), IRQ_VBLANK), corrected);
    Raise(table2, FlagBit(RaisesHBlank(t, d), IRQ_HBLANK), corrected)
  }

  /** `cycle`: the timing, DISPSTAT, the interrupt requests and VCOUNT. */
  function CycleSpec(t: Timing, table: seq<Entry>, corrected: bool): (c: Cycled)
    requires ValidTiming(t) && Shaped(table)
    ensures Shaped(c.table)
  {
    var n := NextTiming(t, corrected);
    if !Moves(t) then
      Cycled(n, table, false, false)
    else
      var d := Decode(GetSpec(table, DISPSTAT));
      var table1 := RaiseAll(table, t, d, Matches(t, d, corrected), corrected);
      var table2 := if EndsRow(t) then SetSpec(table1, VCOUNT, RowValue(n.row)) else table1;
      Cycled(n, SetSpec(table2, DISPSTAT, Encode(NextStat(t, d, corrected))),
             StartsHBlank(t) && t.row < VISIBLE_ROWS, EndsRow(t) && t.row + 1 == VISIBLE_ROWS)
  }

  // ------------------------------------------------ properties of cycle

  /** The beam stays on the 308 x 228 raster. */
  lemma TimingKeepsRaster(t: Timing, corrected: bool)
    requires ValidTiming(t)
    ensures ValidTiming(NextTiming(t, corrected))
  {
  }

  /** The beam moves exactly on the cycles whose counter ends in binary 11, and then by one column. */
  lemma ColumnAdvance(t: Timing, corrected: bool)
    requires ValidTiming(t)
    ensures var n := NextTiming(t, corrected);
            (n.column != t.column <==> Moves(t)) &&
            (Moves(t) ==> n.column == (t.column + 1) % COLUMNS)
  {
  }

  /** A new row starts exactly when column 307 advances; after row 227 comes row 0. */
  lemma RowAdvance(t: Timing, corrected: bool)
    requires ValidTiming(t)
    ensures var n := NextTiming(t, corrected);
            (n.row != t.row <==> EndsRow(t)) &&
            (n.row != t.row ==> n.row == (t.row + 1) % ROWS)
  {
  }

  /** The end of the frame restarts the beam and the counter. */
  lemma FrameRestart(t: Timing, corrected: bool)
    requires ValidTiming(t) && EndsRow(t) && t.row == ROWS - 1
    ensures NextTiming(t, corrected) == Timing(0, 0, if corrected then 0 else 1)
  {
  }

  /** The counter never runs more than three cycles ahead of the beam position in the frame. */
  predicate CounterInFrame(t: Timing) {
    t.counter <= 4 * (t.row * COLUMNS + t.column) + 3
  }

  /**
   * Either way the counter is set back at every frame restart, so a cycle
   * keeps it in step with the beam and below 4 * 308 * 228: the 32-bit
   * `cycleCounter` never wraps.
   */
  lemma CounterStaysInFrame(t: Timing, corrected: bool)
    requires ValidTiming(t) && CounterInFrame(t)
    ensures CounterInFrame(NextTiming(t, corrected))
    ensures NextTiming(t, corrected).counter < 4 * ROWS * COLUMNS
  {
    var n := NextTiming(t, corrected);
    assert n.row * COLUMNS + n.column < ROWS * COLUMNS by {
      assert n.row < ROWS && n.column < COLUMNS;
      assert n.row * COLUMNS <= (ROWS - 1) * COLUMNS;
    }
  }

  /**
   * Corrected, the counter keeps its phase: every cycle moves it one step
   * on modulo 4, so the beam moves every fourth cycle without exception.
   */
  lemma CounterPhase(t: Timing)
    requires ValidTiming(t)
    ensures NextTiming(t, true).counter % 4 == (t.counter + 1) % 4
  {
  }

  /**
   * As written, the frame restart puts the counter at 1 where the phase
   * calls for 0: the first column of every frame comes after three cycles,
   * and a frame lasts 280895 cycles instead of 308 * 228 * 4 = 280896.
   */
  lemma CounterPhaseAsWritten()
    ensures var t := Timing(ROWS - 1, COLUMNS - 1, 3);
            NextTiming(t, false).counter % 4 != (t.counter + 1) % 4
  {
  }

  /** A row is drawn exactly when a visible row reaches column 240. */
  lemma DrawLineIff(t: Timing, table: seq<Entry>, corrected: bool)
    requires ValidTiming(t) && Shaped(table)
    ensures CycleSpec(t, table, corrected).drawLine <==>
              NextTiming(t, corrected).column == VISIBLE_COLUMNS && t.column != VISIBLE_COLUMNS && t.row < VISIBLE_ROWS
  {
  }

  /** The frame is handed to the front end exactly when row 160 begins. */
  lemma FrameDoneIff(t: Timing, table: seq<Entry>, corrected: bool)
    requires ValidTiming(t) && Shaped(table)
    ensures CycleSpec(t, table, corrected).frameDone <==>
              NextTiming(t, corrected).row == VISIBLE_ROWS && t.row != VISIBLE_ROWS
  {
  }

  /** Every new row is written to VCOUNT, past its empty write mask; otherwise VCOUNT is kept. */
  lemma VCountOnNewRow(t: Timing, table: seq<Entry>, corrected: bool)
    requires ValidTiming(t) && Shaped(table)
    ensures var c := CycleSpec(t, table, corrected);
            GetSpec(c.table, VCOUNT) == if EndsRow(t) then RowValue(c.timing.row) else GetSpec(table, VCOUNT)
  {
  }

  /** The fields of DISPSTAT after the cycle are `NextStat` of the fields before. */
  lemma CycleStat(t: Timing, table: seq<Entry>, corrected: bool)
    requires ValidTiming(t) && Shaped(table)
    ensures Decode(GetSpec(CycleSpec(t, table, corrected).table, DISPSTAT)) == NextStat(t, Decode(GetSpec(table, DISPSTAT)), corrected)
  {
    if Moves(t) {
      DecodeEncode(NextStat(t, Decode(GetSpec(table, DISPSTAT)), corrected));
    }
  }

  /** The register the interrupts reach collects the requested bits. */
  lemma CycleRequests(t: Timing, table: seq<Entry>, corrected: bool)
    requires ValidTiming(t) && Shaped(table)
    ensures var i := InterruptIndex(corrected);
            GetSpec(CycleSpec(t, table, corrected).table, i) == GetSpec(table, i) | Requests(t, Decode(GetSpec(table, DISPSTAT)), corrected)
  {
    var i := InterruptIndex(corrected);
    var d := Decode(GetSpec(table, DISPSTAT));
    var bits := Requests(t, d, corrected);
    var after := GetSpec(CycleSpec(t, table, corrected).table, i);
    if Moves(t) {
      MovingRequests(t, table, corrected);
    } else {
      NoRequests(t, d, corrected);
      OrZero(GetSpec(table, i));
      assert after == GetSpec(table, i);
    }
  }

  lemma MovingRequests(t: Timing, table: seq<Entry>, corrected: bool)
    requires ValidTiming(t) && Shaped(table) && Moves(t)
    ensures var i := InterruptIndex(corrected);
            GetSpec(CycleSpec(t, table, corrected).table, i) == GetSpec(table, i) | Requests(t, Decode(GetSpec(table, DISPSTAT)), corrected)
  {
    var i := InterruptIndex(corrected);
    var d := Decode(GetSpec(table, DISPSTAT));
    var bits := Requests(t, d, corrected);
    var n := NextTiming(t, corrected);
    var table1 := RaiseAll(table, t, d, Matches(t, d, corrected), corrected);
    RaiseAllValue(table, t, d, corrected);
    var table2 := if EndsRow(t) then SetSpec(table1, VCOUNT, RowValue(n.row)) else table1;
    SetOther(table1, VCOUNT, RowValue(n.row), i);
    SetOther(table2, DISPSTAT, Encode(NextStat(t, d, corrected)), i);
  }

  /** `Raise` sets the bits in the register the interrupts reach. */
  lemma RaiseValue(table: seq<Entry>, bits: bv16, corrected: bool)
    requires Shaped(table)
    ensures var i := InterruptIndex(corrected);
            GetSpec(Raise(table, bits, corrected), i) == GetSpec(table, i) | bits
  {
    OrZero(GetSpec(table, InterruptIndex(corrected)));
  }

  /** The requests of a cycle, set one after the other, set the bits of `Requests`. */
  lemma RaiseAllValue(table: seq<Entry>, t: Timing, d: Dispstat, corrected: bool)
    requires Shaped(table)
    ensures var i := InterruptIndex(corrected);
            GetSpec(RaiseAll(table, t, d, Matches(t, d, corrected), corrected), i) == GetSpec(table, i) | Requests(t, d, corrected)
  {
    var a := FlagBit(RaisesVCounter(t, d, Matches(t, d, corrected), corrected), IRQ_VCOUNTER);
    var b := FlagBit(RaisesVBlank(t, d), IRQ_VBLANK);
    var c := FlagBit(RaisesHBlank(t, d), IRQ_HBLANK);
    var table1 := Raise(table, a, corrected);
    var table2 := Raise(table1, b, corrected);
    RaiseValue(table, a, corrected);
    RaiseValue(table1, b, corrected);
    RaiseValue(table2, c, corrected);
    OrAssociates(GetSpec(table, InterruptIndex(corrected)), a, b, c);
  }

  lemma OrAssociates(v: bv16, a: bv16, b: bv16, c: bv16)
    ensures ((v | a) | b) | c == v | (a | b | c)
  {
  }

  /** `set` of one register leaves another as it was. */
  lemma SetOther(table: seq<Entry>, index: nat, v: bv16, other: nat)
    requires Shaped(table) && InTable(index) && InTable(other) && index / 2 != other / 2
    ensures GetSpec(SetSpec(table, index, v), other) == GetSpec(table, other)
  {
  }

  lemma OrZero(v: bv16)
    ensures v | 0 == v && 0 | v == v
  {
  }

  /** A cycle that does not move the beam requests nothing. */
  lemma NoRequests(t: Timing, d: Dispstat, corrected: bool)
    requires !Moves(t)
    ensures Requests(t, d, corrected) == 0
  {
  }

  /** A cycle changes no register but DISPSTAT, VCOUNT and the one the interrupts reach, and no mask or handler. */
  lemma CycleFrame(t: Timing, table: seq<Entry>, corrected: bool, k: nat)
    requires ValidTiming(t) && Shaped(table) && k < SLOT_COUNT
    ensures var c := CycleSpec(t, table, corrected);
            c.table[k] == table[k].(value := c.table[k].value) &&
            (k != DISPSTAT / 2 && k != VCOUNT / 2 && k != InterruptIndex(corrected) / 2 ==> c.table[k] == table[k])
  {
    if Moves(t) {
      var i := InterruptIndex(corrected);
      var d := Decode(GetSpec(table, DISPSTAT));
      var m := Matches(t, d, corrected);
      var n := NextTiming(t, corrected);
      var table1 := RaiseAll(table, t, d, m, corrected);
      RaiseAllSlot(table, t, d, m, corrected, k);
      var table2 := if EndsRow(t) then SetSpec(table1, VCOUNT, RowValue(n.row)) else table1;
      SetSlot(table1, VCOUNT, RowValue(n.row), k);
      SetSlot(table2, DISPSTAT, Encode(NextStat(t, d, corrected)), k);
    }
  }

  /** `set` changes only the value of the slot it writes. */
  lemma SetSlot(table: seq<Entry>, index: nat, v: bv16, k: nat)
    requires Shaped(table) && InTable(index) && k < SLOT_COUNT
    ensures var t' := SetSpec(table, index, v);
            t'[k] == table[k].(value := t'[k].value) && (k != index / 2 ==> t'[k] == table[k])
  {
  }

  /** The requests change only the value of the register the interrupts reach. */
  lemma RaiseAllSlot(table: seq<Entry>, t: Timing, d: Dispstat, matched: bool, corrected: bool, k: nat)
    requires Shaped(table) && k < SLOT_COUNT
    ensures var t' := RaiseAll(table, t, d, matched, corrected);
            t'[k] == table[k].(value := t'[k].value) && (k != InterruptIndex(corrected) / 2 ==> t'[k] == table[k])
  {
    var table1 := Raise(table, FlagBit(RaisesVCounter(t, d, matched, corrected), IRQ_VCOUNTER), corrected);
    var table2 := Raise(table1, FlagBit(RaisesVBlank(t, d), IRQ_VBLANK), corrected);
    RaiseSlot(table, FlagBit(RaisesVCounter(t, d, matched, corrected), IRQ_VCOUNTER), corrected, k);
    RaiseSlot(table1, FlagBit(RaisesVBlank(t, d), IRQ_VBLANK), corrected, k);
    RaiseSlot(table2, FlagBit(RaisesHBlank(t, d), IRQ_HBLANK), corrected, k);
  }

  lemma RaiseSlot(table: seq<Entry>, bits: bv16, corrected: bool, k: nat)
    requires Shaped(table) && k < SLOT_COUNT
    ensures var t' := Raise(table, bits, corrected);
            t'[k] == table[k].(value := t'[k].value) && (k != InterruptIndex(corrected) / 2 ==> t'[k] == table[k])
  {
    var i := InterruptIndex(corrected);
    if bits != 0 {
      SetSlot(table, i, GetSpec(table, i) | bits, k);
    } else {
      assert Raise(table, bits, corrected) == table;
    }
  }

  /** The V-blank flag: set when row 160 begins, cleared when row 0 begins, otherwise kept. */
  lemma VBlankFlag(t: Timing, d: Dispstat, corrected: bool)
    ensures NextStat(t, d, corrected).vblank ==
              if EndsRow(t) && t.row + 1 == VISIBLE_ROWS then true
              else if EndsRow(t) && t.row + 1 == ROWS then false
              else d.vblank
  {
  }

  /** The H-blank flag: set at column 240, cleared when a row begins, otherwise kept. */
  lemma HBlankFlag(t: Timing, d: Dispstat, corrected: bool)
    ensures NextStat(t, d, corrected).hblank ==
              if StartsHBlank(t) then true else if EndsRow(t) then false else d.hblank
  {
  }

  /**
   * The V-counter flag is updated on every new row and kept otherwise;
   * corrected, it tells whether the row the beam enters matches the
   * V-count setting.
   */
  lemma VCounterFlag(t: Timing, d: Dispstat)
    requires ValidTiming(t)
    ensures NextStat(t, d, true).vcounter ==
              if EndsRow(t) then NextTiming(t, true).row == Lyc(d) else d.vcounter
  {
  }

  /**
   * As written, the V-counter flag is compared with row 228 when the frame
   * wraps, so a V-count setting of 0 never sets it for row 0.
   */
  lemma VCounterFlagAsWritten(d: Dispstat)
    requires d.lyc == 0
    ensures var t := Timing(ROWS - 1, COLUMNS - 1, 3);
            NextTiming(t, false).row == Lyc(d) && !NextStat(t, d, false).vcounter
  {
  }

  /** The cycle keeps the V-count setting and the interrupt enables. */
  lemma SettingsKept(t: Timing, d: Dispstat, corrected: bool)
    ensures var n := NextStat(t, d, corrected);
            n.lyc == d.lyc && n.unused == d.unused &&
            n.irqVblank == d.irqVblank && n.irqHblank == d.irqHblank && n.irqVcounter == d.irqVcounter
  {
  }

  lemma RequestBits(v: bool, b: bool, h: bool)
    ensures var r := FlagBit(v, IRQ_VCOUNTER) | FlagBit(b, IRQ_VBLANK) | FlagBit(h, IRQ_HBLANK);
            (r & IRQ_VCOUNTER != 0 <==> v) && (r & IRQ_VBLANK != 0 <==> b) && (r & IRQ_HBLANK != 0 <==> h)
  {
  }

  /**
   * Corrected, the V-counter interrupt is requested exactly on a new row
   * that matches the V-count setting, when it is enabled.
   */
  lemma VCounterRequest(t: Timing, d: Dispstat)
    requires ValidTiming(t)
    ensures Requests(t, d, true) & IRQ_VCOUNTER != 0 <==>
              EndsRow(t) && d.irqVcounter && NextTiming(t, true).row == Lyc(d)
  {
    RequestBits(RaisesVCounter(t, d, Matches(t, d, true), true), RaisesVBlank(t, d), RaisesHBlank(t, d));
  }

  /** The V-blank interrupt is requested exactly when row 160 begins, when it is enabled. */
  lemma VBlankRequest(t: Timing, d: Dispstat, corrected: bool)
    requires ValidTiming(t)
    ensures Requests(t, d, corrected) & IRQ_VBLANK != 0 <==>
              EndsRow(t) && NextTiming(t, corrected).row == VISIBLE_ROWS && d.irqVblank
  {
    RequestBits(RaisesVCounter(t, d, Matches(t, d, corrected), corrected), RaisesVBlank(t, d), RaisesHBlank(t, d));
  }

  /** The H-blank interrupt is requested exactly when column 240 begins, when it is enabled. */
  lemma HBlankRequest(t: Timing, d: Dispstat, corrected: bool)
    requires ValidTiming(t)
    ensures Requests(t, d, corrected) & IRQ_HBLANK != 0 <==> StartsHBlank(t) && d.irqHblank
  {
    RequestBits(RaisesVCounter(t, d, Matches(t, d, corrected), corrected), RaisesVBlank(t, d), RaisesHBlank(t, d));
  }

  /**
   * As written, with the V-counter interrupt enabled and the V-count
   * setting at 5, the step from row 0 to row 1 requests the interrupt, and
   * the request lands in IE, leaving IF as it was.
   */
  lemma VCounterRequestAsWritten(table: seq<Entry>)
    requires Shaped(table) && GetSpec(table, DISPSTAT) == 0x0520
    ensures var t := Timing(0, COLUMNS - 1, 3);
            var c := CycleSpec(t, table, false);
            c.timing.row == 1 && Lyc(Decode(GetSpec(table, DISPSTAT))) == 5 &&
            GetSpec(c.table, IE) == GetSpec(table, IE) | IRQ_VCOUNTER &&
            GetSpec(c.table, IF_OFFSET) == GetSpec(table, IF_OFFSET)
  {
  }

  /** Between the blanks, a cycle requests nothing. */
  lemma NoneRequested(t: Timing, d: Dispstat, corrected: bool)
    requires !EndsRow(t) && !StartsHBlank(t)
    ensures Requests(t, d, corrected) == 0
  {
  }

  // --------------------------------------------------- layer priorities

  /** The key `sortLayersByPriority` compares: the whole BGxCNT value as written, its priority bits corrected. */
  function LayerKey(v: bv16, corrected: bool): (k: int)
    ensures 0 <= k < 0x1_0000 && (corrected ==> k < 4)
  {
    if corrected then (v & 3) as int else v as int
  }

  /** The keys of the four layers, read from BG0CNT-BG3CNT. */
  function LayerKeys(table: seq<Entry>, corrected: bool): (keys: seq<int>)
    requires Shaped(table)
    ensures |keys| == Sort.LAYERS
  {
    seq(Sort.LAYERS, l requires 0 <= l < Sort.LAYERS => LayerKey(GetSpec(table, BG0CNT + 2 * l), corrected))
  }

  // ------------------------------------------------------------ the LCD

  /** The LCD's beam position and counter, over the I/O table it shares with the rest of the core. */
  class Lcd {
    var currentRow: nat
    var currentColumn: nat
    var cycleCounter: nat
    const io: Io
    const vram: array<bv8>
    const frameBuffer: array<Draw.Pixel>

    function Now(): Timing
      reads this
    {
      Timing(currentRow, currentColumn, cycleCounter)
    }

    ghost predicate Valid()
      reads this
    {
      io.Valid() && ValidTiming(Now()) && Screens()
    }

    /** The video memory and the frame buffer have their sizes. */
    predicate Screens() {
      vram.Length == Draw.VRAM_SIZE && frameBuffer.Length == Draw.FRAME_SIZE
    }

    constructor (io: Io, vram: array<bv8>, frameBuffer: array<Draw.Pixel>)
      requires io.Valid() && vram.Length == Draw.VRAM_SIZE && frameBuffer.Length == Draw.FRAME_SIZE
      ensures Valid() && Now() == Timing(0, 0, 0)
      ensures this.io == io && this.vram == vram && this.frameBuffer == frameBuffer
    {
      this.io := io;
      this.vram := vram;
      this.frameBuffer := frameBuffer;
      currentRow, currentColumn, cycleCounter := 0, 0, 0;
    }

    /**
     * `cycle`: the beam and registers move as `CycleSpec` says, and at the
     * start of the horizontal blank of a visible row that row is drawn.
     */
    method Cycle(corrected: bool) returns (frameDone: bool)
      requires Valid()
      modifies this, io.io, frameBuffer
      ensures Valid()
      ensures var c := CycleSpec(old(Now()), old(io.io[..]), corrected);
              Now() == c.timing && io.io[..] == c.table && frameDone == c.frameDone &&
              frameBuffer[..] == if c.drawLine then Draw.LineSpec(old(frameBuffer[..]), vram[..], c.table, old(currentRow), corrected)
                                 else old(frameBuffer[..])
    {
      ghost var t := Now();
      var drawLine;
      drawLine, frameDone := Advance(corrected);
      if drawLine {
        DrawLine(corrected);
      }
    }

    /** `drawLine` on the current row: the mode DISPCNT selects. */
    method DrawLine(corrected: bool)
      requires io.Valid() && Screens() && currentRow < Draw.SCREEN_HEIGHT
      modifies frameBuffer
      ensures frameBuffer[..] == Draw.LineSpec(old(frameBuffer[..]), vram[..], io.io[..], currentRow, corrected)
    {
      var dispcnt := io.Get(DISPCNT);
      var mode := Draw.BgMode(dispcnt);
      if mode <= 2 {
        DrawMode0(corrected);
      } else if mode == 3 {
        DrawMode3();
      } else if mode == 4 {
        DrawMode4();
      } else if mode == 5 {
        DrawMode5();
      }
    }

    /**
     * `drawMode0`, which modes 1 and 2 also use: the layers are sorted,
     * then each enabled layer is drawn, in index order.
     */
    method DrawMode0(corrected: bool)
      requires io.Valid() && Screens() && currentRow < Draw.SCREEN_HEIGHT
      modifies frameBuffer
      ensures frameBuffer[..] == Draw.Mode0From(old(frameBuffer[..]), vram[..], io.io[..], GetSpec(io.io[..], DISPCNT), currentRow, 0, corrected)
    {
      var layers := new int[Sort.LAYERS];
      SortLayersByPriority(layers, corrected);
      var dispcnt := io.Get(DISPCNT);
      DrawLayers(dispcnt, corrected);
    }

    /** The loop of `drawMode0`: each layer DISPCNT enables, in index order. */
    method DrawLayers(dispcnt: bv16, corrected: bool)
      requires io.Valid() && Screens() && currentRow < Draw.SCREEN_HEIGHT
      modifies frameBuffer
      ensures frameBuffer[..] == Draw.Mode0From(old(frameBuffer[..]), vram[..], io.io[..], dispcnt, currentRow, 0, corrected)
    {
      ghost var frame := frameBuffer[..];
      ghost var table := io.io[..];
      ghost var mem := vram[..];
      var i := 0;
      while i < 4
        invariant i <= 4 && io.io[..] == table && vram[..] == mem
        invariant Draw.Mode0From(frameBuffer[..], mem, table, dispcnt, currentRow, i, corrected) ==
                  Draw.Mode0From(frame, mem, table, dispcnt, currentRow, 0, corrected)
      {
        ghost var before := frameBuffer[..];
        if Draw.LayerEnabled(dispcnt, i) {
          DrawLayer(i, corrected);
        }
        assert Draw.Mode0From(before, mem, table, dispcnt, currentRow, i, corrected) ==
               Draw.Mode0From(frameBuffer[..], mem, table, dispcnt, currentRow, i + 1, corrected);
        i := i + 1;
      }
    }

    /** `drawLayer(layer)`: the registers of the layer, then its row. */
    method DrawLayer(layer: nat, corrected: bool)
      requires io.Valid() && Screens() && currentRow < Draw.SCREEN_HEIGHT && layer < 4
      modifies frameBuffer
      ensures frameBuffer[..] == Draw.WriteRow(old(frameBuffer[..]), currentRow, Draw.LayerLineOf(vram[..], io.io[..], layer, currentRow, corrected))
    {
      var value := io.Get(BG0CNT + 2 * layer);
      var bghofs := io.Get(Draw.ScrollIndex(BG0HOFS, layer, corrected));
      var bgvofs := io.Get(Draw.ScrollIndex(BG0VOFS, layer, corrected));
      DrawLayerRow(Draw.DecodeBgcnt(value), bghofs as nat, bgvofs as nat);
    }

    /** The loop of `drawLayer`: 240 pixels, walking the layer from its horizontal offset. */
    method DrawLayerRow(bgcnt: Draw.Bgcnt, bghofs: nat, bgvofs: nat)
      requires Screens() && currentRow < Draw.SCREEN_HEIGHT && Draw.ValidBgcnt(bgcnt)
      modifies frameBuffer
      ensures frameBuffer[..] == Draw.WriteRow(old(frameBuffer[..]), currentRow, Draw.LayerLine(vram[..], bgcnt, bghofs, bgvofs, currentRow))
    {
      ghost var frame := frameBuffer[..];
      ghost var line := Draw.LayerLine(vram[..], bgcnt, bghofs, bgvofs, currentRow);
      var width := Draw.LayerWidth(bgcnt.screenSize);
      var yLayer := (currentRow + bgvofs) % Draw.LayerHeight(bgcnt.screenSize);
      var xLayer: nat := bghofs;
      var x := 0;
      while x < Draw.SCREEN_WIDTH
        invariant x <= Draw.SCREEN_WIDTH
        invariant xLayer == if x == 0 then bghofs else (bghofs + x - 1) % width + 1
        invariant frameBuffer[..] == Draw.WriteRow(frame, currentRow, line[..x])
      {
        if x > 0 {
          Draw.ModStep(bghofs + x - 1, width);
        }
        xLayer := xLayer % width;
        var p := LayerPixel(bgcnt, xLayer, yLayer, bghofs, bgvofs, x);
        Draw.WriteRowStep(frame, currentRow, line[..x], p);
        frameBuffer[currentRow * Draw.SCREEN_WIDTH + x] := p;
        assert line[..x + 1] == line[..x] + [p];
        xLayer := xLayer + 1;
        x := x + 1;
      }
      assert line[..x] == line;
    }

    /** The pixel at layer position (`xLayer`, `yLayer`): the map entry, then the tile byte. */
    method LayerPixel(bgcnt: Draw.Bgcnt, xLayer: nat, yLayer: nat, ghost bghofs: nat, ghost bgvofs: nat, ghost x: nat)
      returns (p: Draw.Pixel)
      requires Screens() && Draw.ValidBgcnt(bgcnt)
      requires xLayer == (bghofs + x) % Draw.LayerWidth(bgcnt.screenSize)
      requires yLayer == (currentRow + bgvofs) % Draw.LayerHeight(bgcnt.screenSize)
      ensures p == Draw.Palette(Draw.LayerPixel(vram[..], bgcnt, bghofs, bgvofs, currentRow, x))
    {
      Draw.LayerSizes(bgcnt);
      var address := Draw.MapEntryAddress(bgcnt, xLayer, yLayer);
      var mapValue := Draw.TileNumber(bgcnt, Draw.Join(vram[address], vram[address + 1]));
      var tileValue := vram[Draw.TileByteAddress(bgcnt, mapValue, xLayer, yLayer)];
      p := Draw.Palette(Draw.PixelValue(bgcnt, tileValue, xLayer));
    }

    /** `drawMode3`: 240 direct colours from the halfwords of the row. */
    method DrawMode3()
      requires Screens() && currentRow < Draw.SCREEN_HEIGHT
      modifies frameBuffer
      ensures frameBuffer[..] == Draw.WriteRow(old(frameBuffer[..]), currentRow, Draw.Mode3Line(vram[..], currentRow))
    {
      ghost var frame := frameBuffer[..];
      ghost var line := Draw.Mode3Line(vram[..], currentRow);
      var x := 0;
      while x < Draw.SCREEN_WIDTH
        invariant x <= Draw.SCREEN_WIDTH
        invariant frameBuffer[..] == Draw.WriteRow(frame, currentRow, line[..x])
      {
        var i := currentRow * Draw.SCREEN_WIDTH + x;
        var p := Draw.Direct(Draw.Join(vram[2 * i], vram[2 * i + 1]));
        assert line[x] == Draw.Direct(Draw.VramHalf(vram[..], 2 * i));
        assert p == line[x];
        Draw.WriteRowStep(frame, currentRow, line[..x], p);
        frameBuffer[currentRow * Draw.SCREEN_WIDTH + x] := p;
        assert line[..x + 1] == line[..x] + [p];
        x := x + 1;
      }
      assert line[..x] == line;
    }

    /** `drawMode4`: 240 palette indices from the page frame select picks. */
    method DrawMode4()
      requires io.Valid() && Screens() && currentRow < Draw.SCREEN_HEIGHT
      modifies frameBuffer
      ensures frameBuffer[..] == Draw.WriteRow(old(frameBuffer[..]), currentRow,
                                               Draw.Mode4Line(vram[..], currentRow, Draw.Mode4Offset(GetSpec(io.io[..], DISPCNT))))
    {
      var dispcnt := io.Get(DISPCNT);
      var offset := if Draw.FrameSelect(dispcnt) then 0xa000 else 0;
      ghost var frame := frameBuffer[..];
      ghost var line := Draw.Mode4Line(vram[..], currentRow, offset);
      var x := 0;
      while x < Draw.SCREEN_WIDTH
        invariant x <= Draw.SCREEN_WIDTH
        invariant frameBuffer[..] == Draw.WriteRow(frame, currentRow, line[..x])
      {
        var p := Draw.Palette(vram[currentRow * Draw.SCREEN_WIDTH + x + offset]);
        assert p == line[x];
        Draw.WriteRowStep(frame, currentRow, line[..x], p);
        frameBuffer[currentRow * Draw.SCREEN_WIDTH + x] := p;
        assert line[..x + 1] == line[..x] + [p];
        x := x + 1;
      }
      assert line[..x] == line;
    }

    /** `drawMode5`: on the first 128 rows, 160 direct colours from the page frame select picks. */
    method DrawMode5()
      requires io.Valid() && Screens() && currentRow < Draw.SCREEN_HEIGHT
      modifies frameBuffer
      ensures frameBuffer[..] == Draw.WriteRow(old(frameBuffer[..]), currentRow,
                                               Draw.Mode5Line(vram[..], currentRow, Draw.Mode5Offset(GetSpec(io.io[..], DISPCNT))))
    {
      var dispcnt := io.Get(DISPCNT);
      var offset := if Draw.FrameSelect(dispcnt) then 0x5000 else 0;
      ghost var frame := frameBuffer[..];
      ghost var line := Draw.Mode5Line(vram[..], currentRow, offset);
      if currentRow < 128 {
        var x := 0;
        while x < 160
          invariant x <= 160
          invariant frameBuffer[..] == Draw.WriteRow(frame, currentRow, line[..x])
        {
          var i := currentRow * 160 + x + offset;
          var p := Draw.Direct(Draw.Join(vram[2 * i], vram[2 * i + 1]));
          assert line[x] == Draw.Direct(Draw.VramHalf(vram[..], 2 * i));
          assert p == line[x];
          Draw.WriteRowStep(frame, currentRow, line[..x], p);
          frameBuffer[currentRow * Draw.SCREEN_WIDTH + x] := p;
          assert line[..x + 1] == line[..x] + [p];
          x := x + 1;
        }
        assert line[..x] == line;
      } else {
        assert frameBuffer[..] == Draw.WriteRow(frame, currentRow, line);
      }
    }

    /**
     * `sortLayersByPriority`: a selection sort of the layers 3, 2, 1, 0 by
     * their keys, looked up by position as written and by layer corrected.
     */
    method SortLayersByPriority(layers: array<int>, corrected: bool)
      requires io.Valid() && layers.Length == Sort.LAYERS
      modifies layers
      ensures layers[..] == Sort.Sorted(LayerKeys(io.io[..], corrected), corrected)
    {
      ghost var keys := LayerKeys(io.io[..], corrected);
      layers[0] := 3;
      layers[1] := 2;
      layers[2] := 1;
      layers[3] := 0;
      assert layers[..] == Sort.INITIAL;
      var i := 0;
      while i < Sort.LAYERS - 1
        invariant i <= Sort.LAYERS - 1 && Sort.LayerIndices(layers[..])
        invariant Sort.Passes(keys, layers[..], i, corrected) == Sort.Sorted(keys, corrected)
      {
        var maxPriorityIndex := MaxPriorityIndex(layers, i, corrected);
        ghost var before := layers[..];
        Sort.PassesStep(keys, before, i, corrected);
        var exchange := layers[i];
        layers[i] := layers[maxPriorityIndex];
        layers[maxPriorityIndex] := exchange;
        assert layers[..] == Sort.Swap(before, i, maxPriorityIndex);
        i := i + 1;
      }
    }

    /** The inner loop of `sortLayersByPriority`: the position of the first largest key from `i` on. */
    method MaxPriorityIndex(layers: array<int>, i: nat, corrected: bool) returns (maxPriorityIndex: nat)
      requires io.Valid() && layers.Length == Sort.LAYERS && Sort.LayerIndices(layers[..]) && i < Sort.LAYERS - 1
      ensures maxPriorityIndex == Sort.Selected(Sort.Compared(LayerKeys(io.io[..], corrected), layers[..], corrected), i, i + 1)
    {
      ghost var compared := Sort.Compared(LayerKeys(io.io[..], corrected), layers[..], corrected);
      var layerPriority := KeyAt(layers, i, corrected);
      var maxPriority := layerPriority;
      maxPriorityIndex := i;
      var j := i + 1;
      while j < Sort.LAYERS
        invariant i < j <= Sort.LAYERS && i <= maxPriorityIndex < j
        invariant maxPriority == compared[maxPriorityIndex]
        invariant Sort.Selected(compared, maxPriorityIndex, j) == Sort.Selected(compared, i, i + 1)
      {
        var currentLayerPriority := KeyAt(layers, j, corrected);
        Sort.SelectedStep(compared, maxPriorityIndex, j);
        if currentLayerPriority > maxPriority {
          maxPriorityIndex := j;
          maxPriority := currentLayerPriority;
        }
        j := j + 1;
      }
    }

    /** `io::get(io::BG0CNT + 2 * j)` as written, the key of the layer at position `j` corrected. */
    method KeyAt(layers: array<int>, j: nat, corrected: bool) returns (key: int)
      requires io.Valid() && layers.Length == Sort.LAYERS && Sort.LayerIndices(layers[..]) && j < Sort.LAYERS
      ensures key == Sort.Compared(LayerKeys(io.io[..], corrected), layers[..], corrected)[j]
    {
      Sort.ComparedAt(LayerKeys(io.io[..], corrected), layers[..], corrected, j);
      var layer := if corrected then layers[j] else j;
      var v := io.Get(BG0CNT + 2 * layer);
      key := LayerKey(v, corrected);
    }

    /** `io::set(io::IF, io::get(io::IF) | bit)`. */
    method RaiseInterrupt(bit: bv16, corrected: bool)
      requires io.Valid() && bit != 0
      modifies io.io
      ensures io.io[..] == Raise(old(io.io[..]), bit, corrected)
    {
      var index := InterruptIndex(corrected);
      var v := io.Get(index);
      io.Set(index, v | bit);
    }

    /** `cycle` without the drawing: the beam, DISPSTAT, VCOUNT and the interrupt requests. */
    method Advance(corrected: bool) returns (drawLine: bool, frameDone: bool)
      requires Valid()
      modifies this, io.io
      ensures Valid()
      ensures Cycled(Now(), io.io[..], drawLine, frameDone) == CycleSpec(old(Now()), old(io.io[..]), corrected)
    {
      ghost var t := Now();
      drawLine, frameDone := false, false;
      var restart := false;
      if cycleCounter % 4 == 3 {
        drawLine, frameDone, restart := Move(t, corrected);
      }
      if !(corrected && restart) {
        cycleCounter := cycleCounter + 1;
      }
    }

    /** The part of `cycle` that moves the beam one column, every fourth cycle. */
    method Move(ghost t: Timing, corrected: bool) returns (drawLine: bool, frameDone: bool, restart: bool)
      requires io.Valid() && ValidTiming(t) && Moves(t) && Now() == t
      modifies this, io.io
      ensures var spec := CycleSpec(t, old(io.io[..]), corrected);
              io.io[..] == spec.table && drawLine == spec.drawLine && frameDone == spec.frameDone &&
              NextTiming(t, corrected) == Timing(currentRow, currentColumn, if corrected && restart then cycleCounter else cycleCounter + 1)
      ensures restart ==> corrected || t.row + 1 == ROWS
    {
      ghost var table := io.io[..];
      ghost var spec := CycleSpec(t, table, corrected);
      drawLine, frameDone, restart := false, false, false;
      var value := io.Get(DISPSTAT);
      var stat := Decode(value);
      ghost var n := NextTiming(t, corrected);
      ghost var table1 := RaiseAll(table, t, stat, Matches(t, stat, corrected), corrected);
      currentColumn := currentColumn + 1;
      if currentColumn == COLUMNS {
        var matched := MatchedRow(currentRow + 1, corrected) == Lyc(stat);
        stat, frameDone, restart := NewRow(t, stat, matched, corrected);
        assert io.io[..] == SetSpec(table1, VCOUNT, RowValue(n.row));
      } else if currentColumn == VISIBLE_COLUMNS {
        stat, drawLine := HBlankStart(t, stat, corrected);
        assert io.io[..] == table1;
      } else {
        NoneRequested(t, stat, corrected);
        assert io.io[..] == table1;
      }
      assert stat == NextStat(t, Decode(value), corrected);
      io.Set(DISPSTAT, Encode(stat));
      assert io.io[..] == spec.table;
    }

    /** The column wrapped to 0: the next row begins; `matched` tells whether it matches the V-count setting. */
    method NewRow(ghost t: Timing, stat: Dispstat, matched: bool, corrected: bool)
      returns (stat': Dispstat, frameDone: bool, restart: bool)
      requires io.Valid() && ValidTiming(t) && EndsRow(t)
      requires currentRow == t.row && cycleCounter == t.counter
      modifies this, io.io
      ensures stat' == StatOnNewRow(stat, matched, t.row + 1)
      ensures io.io[..] == SetSpec(RaiseAll(old(io.io[..]), t, stat, matched, corrected), VCOUNT, RowValue(currentRow))
      ensures NextTiming(t, corrected) == Timing(currentRow, currentColumn, if corrected && restart then cycleCounter else cycleCounter + 1)
      ensures restart == (t.row + 1 == ROWS) && frameDone == (t.row + 1 == VISIBLE_ROWS)
    {
      ghost var table := io.io[..];
      currentColumn := 0;
      currentRow := currentRow + 1;
      stat' := stat.(hblank := false, vcounter := matched);
      if stat'.irqVcounter && (!corrected || matched) {
        RaiseInterrupt(IRQ_VCOUNTER, corrected);
      }
      stat', frameDone, restart := FrameEdge(t, stat', corrected);
      io.Set(VCOUNT, RowValue(currentRow));
    }

    /** The new row ends the frame (row 228 wraps to 0) or ends the visible rows (row 160). */
    method FrameEdge(ghost t: Timing, stat: Dispstat, corrected: bool)
      returns (stat': Dispstat, frameDone: bool, restart: bool)
      requires io.Valid() && ValidTiming(t) && EndsRow(t)
      requires currentRow == t.row + 1 && currentColumn == 0 && cycleCounter == t.counter
      modifies this, io.io
      ensures stat' == stat.(vblank := if t.row + 1 == ROWS then false else if t.row + 1 == VISIBLE_ROWS then true else stat.vblank)
      ensures io.io[..] == Raise(old(io.io[..]), FlagBit(RaisesVBlank(t, stat), IRQ_VBLANK), corrected)
      ensures NextTiming(t, corrected) == Timing(currentRow, currentColumn, if corrected && restart then cycleCounter else cycleCounter + 1)
      ensures restart == (t.row + 1 == ROWS) && frameDone == (t.row + 1 == VISIBLE_ROWS)
    {
      stat' := stat;
      restart, frameDone := false, false;
      if currentRow == ROWS {
        currentRow := 0;
        cycleCounter := 0;
        restart := true;
        stat' := stat'.(vblank := false);
      } else if currentRow == VISIBLE_ROWS {
        stat' := stat'.(vblank := true);
        if stat'.irqVblank {
          RaiseInterrupt(IRQ_VBLANK, corrected);
        }
        frameDone := true;
      }
    }

    /** Column 240: the horizontal blank begins. */
    method HBlankStart(ghost t: Timing, stat: Dispstat, corrected: bool) returns (stat': Dispstat, drawLine: bool)
      requires io.Valid() && ValidTiming(t) && StartsHBlank(t)
      requires currentRow == t.row
      modifies io.io
      ensures stat' == NextStat(t, stat, corrected)
      ensures io.io[..] == RaiseAll(old(io.io[..]), t, stat, false, corrected)
      ensures drawLine == (t.row < VISIBLE_ROWS)
    {
      stat' := stat.(hblank := true);
      if stat'.irqHblank {
        RaiseInterrupt(IRQ_HBLANK, corrected);
      }
      drawLine := currentRow < VISIBLE_ROWS;
    }
  }
}
