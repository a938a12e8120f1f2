// src/gbaemu/gba/cpu.cpp: the banked register file of the C++ core. The
// registers live in seven arrays (r0_8, r8_15_usr, r8_14_fiq and two-entry
// arrays for SVC, ABT, IRQ and UND); `registerMapping` is a table of 112
// pointers, one per register and mode index, and `modeMapping` turns the
// five mode bits of the CPSR into a mode index. `registerRead` and
// `registerWrite` go through the mapping entry at reg * 7 + mode index.
//
// The table is proved to be the banking of section A2.3 of the ARM
// Architecture Reference Manual: r0-r7 and r15 are shared, r8-r12 have a
// FIQ copy, r13-r14 have a copy per exception mode, and System mode uses
// the User registers.

module CppCpu {
  import opened Bits

  // The mode bits of the CPSR (the `mode_t` enumeration of cpu.hpp).
  const PSR_MODE_USR: bv32 := 0x10
  const PSR_MODE_FIQ: bv32 := 0x11
  const PSR_MODE_IRQ: bv32 := 0x12
  const PSR_MODE_SVC: bv32 := 0x13
  const PSR_MODE_ABT: bv32 := 0x17
  const PSR_MODE_UND: bv32 := 0x1b
  const PSR_MODE_SYS: bv32 := 0x1f

  // The mode indexes, the columns of `registerMapping`.
  const MODE_USR: nat := 0
  const MODE_FIQ: nat := 1
  const MODE_SVC: nat := 2
  const MODE_ABT: nat := 3
  const MODE_IRQ: nat := 4
  const MODE_UND: nat := 5
  const MODE_SYS: nat := 6
  const MODE_INV: nat := 7

  /** `modeMapping`: the mode index of each value of the five mode bits. */
  const ModeMapping: seq<nat> := [
    7, 7, 7, 7, 7, 7, 7, 7, 7, 7, 7, 7, 7, 7, 7, 7,
    0, 1, 4, 2, 7, 7, 7, 3, 7, 7, 7, 5, 7, 7, 7, 6
  ]

  /** The seven register arrays. */
  datatype Bank = Low | User | Fiq | Svc | Abt | Irq | Und

  /** One register cell: an array and an index into it. */
  datatype Cell = Cell(bank: Bank, index: nat)

  /** Row `reg` of `registerMapping`: its cell in the modes USR, FIQ, SVC, ABT, IRQ, UND, SYS. */
  function MappingRow(reg: nat): (row: seq<Cell>)
    requires reg < 16
    ensures |row| == 7
    ensures forall i :: 0 <= i < 7 ==> ValidCell(row[i])
  {
    if reg == 0 then [Cell(Low, 0), Cell(Low, 0), Cell(Low, 0), Cell(Low, 0), Cell(Low, 0), Cell(Low, 0), Cell(Low, 0)]
    else if reg == 1 then [Cell(Low, 1), Cell(Low, 1), Cell(Low, 1), Cell(Low, 1), Cell(Low, 1), Cell(Low, 1), Cell(Low, 1)]
    else if reg == 2 then [Cell(Low, 2), Cell(Low, 2), Cell(Low, 2), Cell(Low, 2), Cell(Low, 2), Cell(Low, 2), Cell(Low, 2)]
    else if reg == 3 then [Cell(Low, 3), Cell(Low, 3), Cell(Low, 3), Cell(Low, 3), Cell(Low, 3), Cell(Low, 3), Cell(Low, 3)]
    else if reg == 4 then [Cell(Low, 4), Cell(Low, 4), Cell(Low, 4), Cell(Low, 4), Cell(Low, 4), Cell(Low, 4), Cell(Low, 4)]
    else if reg == 5 then [Cell(Low, 5), Cell(Low, 5), Cell(Low, 5), Cell(Low, 5), Cell(Low, 5), Cell(Low, 5), Cell(Low, 5)]
    else if reg == 6 then [Cell(Low, 6), Cell(Low, 6), Cell(Low, 6), Cell(Low, 6), Cell(Low, 6), Cell(Low, 6), Cell(Low, 6)]
    else if reg == 7 then [Cell(Low, 7), Cell(Low, 7), Cell(Low, 7), Cell(Low, 7), Cell(Low, 7), Cell(Low, 7), Cell(Low, 7)]
    else if reg == 8 then [Cell(User, 0), Cell(Fiq, 0), Cell(User, 0), Cell(User, 0), Cell(User, 0), Cell(User, 0), Cell(User, 0)]
    else if reg == 9 then [Cell(User, 1), Cell(Fiq, 1), Cell(User, 1), Cell(User, 1), Cell(User, 1), Cell(User, 1), Cell(User, 1)]
    else if reg == 10 then [Cell(User, 2), Cell(Fiq, 2), Cell(User, 2), Cell(User, 2), Cell(User, 2), Cell(User, 2), Cell(User, 2)]
    else if reg == 11 then [Cell(User, 3), Cell(Fiq, 3), Cell(User, 3), Cell(User, 3), Cell(User, 3), Cell(User, 3), Cell(User, 3)]
    else if reg == 12 then [Cell(User, 4), Cell(Fiq, 4), Cell(User, 4), Cell(User, 4), Cell(User, 4), Cell(User, 4), Cell(User, 4)]
    else if reg == 13 then [Cell(User, 5), Cell(Fiq, 5), Cell(Svc, 0), Cell(Abt, 0), Cell(Irq, 0), Cell(Und, 0), Cell(User, 5)]
    else if reg == 14 then [Cell(User, 6), Cell(Fiq, 6), Cell(Svc, 1), Cell(Abt, 1), Cell(Irq, 1), Cell(Und, 1), Cell(User, 6)]
    else [Cell(User, 7), Cell(User, 7), Cell(User, 7), Cell(User, 7), Cell(User, 7), Cell(User, 7), Cell(User, 7)]
  }

  /** `registerMapping[k]`: the table is laid out row by row, seven entries a row. */
  function RegisterMapping(k: nat): (c: Cell)
    requires k < 112
    ensures ValidCell(c)
  {
    MappingRow(k / 7)[k % 7]
  }

  /** Entry reg * 7 + mi is column `mi` of row `reg`. */
  lemma MappingEntry(reg: nat, mi: nat)
    requires reg < 16 && mi < 7
    ensures RegisterMapping(reg * 7 + mi) == MappingRow(reg)[mi]
  {
    assert (reg * 7 + mi) / 7 == reg && (reg * 7 + mi) % 7 == mi;
  }

  /** The length of each array. */
  function Size(bank: Bank): nat {
    match bank
    case Low => 8
    case User => 8
    case Fiq => 7
    case _ => 2
  }

  predicate ValidCell(c: Cell) {
    c.index < Size(c.bank)
  }

  /** The banked copy of r13 and r14 of each exception mode other than FIQ. */
  function ExceptionBank(mi: nat): Bank {
    if mi == MODE_SVC then Svc
    else if mi == MODE_ABT then Abt
    else if mi == MODE_IRQ then Irq
    else Und
  }

  /**
   * The register organisation of section A2.3 of the ARM Architecture
   * Reference Manual: the cell register `reg` names in the mode with index
   * `mi`.
   */
  function ReferenceCell(reg: nat, mi: nat): (c: Cell)
    requires reg < 16 && mi < 7
    ensures ValidCell(c)
  {
    if reg < 8 then Cell(Low, reg)
    else if reg == 15 then Cell(User, 7)
    else if mi == MODE_FIQ then Cell(Fiq, reg - 8)
    else if reg < 13 || mi == MODE_USR || mi == MODE_SYS then Cell(User, reg - 8)
    else Cell(ExceptionBank(mi), reg - 13)
  }

  /** Every entry of `registerMapping` is the architecture's cell. */
  lemma MappingIsReference(reg: nat, mi: nat)
    requires reg < 16 && mi < 7
    ensures RegisterMapping(reg * 7 + mi) == ReferenceCell(reg, mi)
  {
    MappingEntry(reg, mi);
    RowIsReference(reg, mi);
  }

  lemma RowIsReference(reg: nat, mi: nat)
    requires reg < 16 && mi < 7
    ensures MappingRow(reg)[mi] == ReferenceCell(reg, mi)
  {
  }

  /** With an invalid mode, entry reg * 7 + 7 is the User cell of the next register. */
  lemma InvalidModeReadsNextRegister(reg: nat)
    requires reg < 15
    ensures RegisterMapping(reg * 7 + MODE_INV) == ReferenceCell(reg + 1, MODE_USR)
  {
    assert reg * 7 + MODE_INV == (reg + 1) * 7 + MODE_USR;
    MappingIsReference(reg + 1, MODE_USR);
  }

  // ------------------------------------------------------ banking properties

  /** r0-r7 and r15 name the same cell in every mode. */
  lemma SharedRegisters(reg: nat, mi: nat)
    requires (reg < 8 || reg == 15) && mi < 7
    ensures RegisterMapping(reg * 7 + mi) == RegisterMapping(reg * 7 + MODE_USR)
  {
    MappingIsReference(reg, mi);
    MappingIsReference(reg, MODE_USR);
  }

  /** r8-r12 have one copy of their own, in FIQ mode. */
  lemma FiqBankOnly(reg: nat, mi: nat)
    requires 8 <= reg < 13 && mi < 7
    ensures RegisterMapping(reg * 7 + mi) == RegisterMapping(reg * 7 + MODE_USR) <==> mi != MODE_FIQ
  {
    MappingIsReference(reg, mi);
    MappingIsReference(reg, MODE_USR);
  }

  /** User and System mode share their registers. */
  predicate UserBank(mi: nat) {
    mi == MODE_USR || mi == MODE_SYS
  }

  /** r13 and r14 have a copy per mode, System sharing User's. */
  lemma StackAndLinkBanked(reg: nat, mi: nat, mj: nat)
    requires 13 <= reg < 15 && mi < 7 && mj < 7
    ensures RegisterMapping(reg * 7 + mi) == RegisterMapping(reg * 7 + mj)
            <==> mi == mj || (UserBank(mi) && UserBank(mj))
  {
    MappingIsReference(reg, mi);
    MappingIsReference(reg, mj);
  }

  /** In one mode, two registers never share a cell. */
  lemma DistinctRegisters(a: nat, b: nat, mi: nat)
    requires a < 16 && b < 16 && a != b && mi < 7
    ensures RegisterMapping(a * 7 + mi) != RegisterMapping(b * 7 + mi)
  {
    MappingIsReference(a, mi);
    MappingIsReference(b, mi);
  }

  // --------------------------------------------------------------- state

  /** The contents of the seven register arrays. */
  datatype Registers = Registers(low: seq<bv32>, usr: seq<bv32>, fiq: seq<bv32>,
                                 svc: seq<bv32>, abt: seq<bv32>, irq: seq<bv32>, und: seq<bv32>)

  predicate Shaped(rs: Registers) {
    |rs.low| == 8 && |rs.usr| == 8 && |rs.fiq| == 7 &&
    |rs.svc| == 2 && |rs.abt| == 2 && |rs.irq| == 2 && |rs.und| == 2
  }

  /** The value in a cell. */
  function Get(rs: Registers, c: Cell): bv32
    requires Shaped(rs) && ValidCell(c)
  {
    match c.bank
    case Low => rs.low[c.index]
    case User => rs.usr[c.index]
    case Fiq => rs.fiq[c.index]
    case Svc => rs.svc[c.index]
    case Abt => rs.abt[c.index]
    case Irq => rs.irq[c.index]
    case Und => rs.und[c.index]
  }

  /** The registers with `v` stored into the cell `c`. */
  function Put(rs: Registers, c: Cell, v: bv32): (rs': Registers)
    requires Shaped(rs) && ValidCell(c)
    ensures Shaped(rs')
  {
    match c.bank
    case Low => rs.(low := rs.low[c.index := v])
    case User => rs.(usr := rs.usr[c.index := v])
    case Fiq => rs.(fiq := rs.fiq[c.index := v])
    case Svc => rs.(svc := rs.svc[c.index := v])
    case Abt => rs.(abt := rs.abt[c.index := v])
    case Irq => rs.(irq := rs.irq[c.index := v])
    case Und => rs.(und := rs.und[c.index := v])
  }

  /** A store changes the cell it goes through and no other. */
  lemma GetPut(rs: Registers, c: Cell, d: Cell, v: bv32)
    requires Shaped(rs) && ValidCell(c) && ValidCell(d)
    ensures Get(Put(rs, c, v), d) == if c == d then v else Get(rs, d)
  {
  }

  /** Bits 4-0 of the CPSR, `cpsr.fields.mode`. */
  function ModeBits(cpsr: bv32): (k: nat)
    ensures k < 32
  {
    (cpsr & 0x1f) as nat
  }

  /** `modeMapping[cpsr.fields.mode]`. */
  function ModeIndex(cpsr: bv32): (mi: nat)
    ensures mi <= MODE_INV
  {
    ModeMapping[ModeBits(cpsr)]
  }

  /** The mapping entry at reg * 7 + mode index lies inside the 112-entry table. */
  predicate Addressable(cpsr: bv32, reg: nat) {
    reg * 7 + ModeIndex(cpsr) < 112
  }

  /** The cell `registerRead` and `registerWrite` go through. */
  function Target(cpsr: bv32, reg: nat): Cell
    requires Addressable(cpsr, reg)
  {
    RegisterMapping(reg * 7 + ModeIndex(cpsr))
  }

  /** Every register is addressable in a valid mode; with an invalid one, all but r15. */
  lemma AddressableIff(cpsr: bv32, reg: nat)
    requires reg < 16
    ensures Addressable(cpsr, reg) <==> ModeIndex(cpsr) != MODE_INV || reg < 15
  {
  }

  /** `registerRead(reg)` in a state. */
  function ReadSpec(rs: Registers, cpsr: bv32, reg: nat): bv32
    requires Shaped(rs) && Addressable(cpsr, reg)
  {
    Get(rs, Target(cpsr, reg))
  }

  /** `registerWrite(reg, v)` in a state. */
  function WriteSpec(rs: Registers, cpsr: bv32, reg: nat, v: bv32): (rs': Registers)
    requires Shaped(rs) && Addressable(cpsr, reg)
    ensures Shaped(rs')
  {
    Put(rs, Target(cpsr, reg), v)
  }

  /**
   * Reading a register after writing one in a valid mode: the written
   * register reads the value, every other register reads what it did.
   */
  lemma WriteThenRead(rs: Registers, cpsr: bv32, reg: nat, other: nat, v: bv32)
    requires Shaped(rs) && reg < 16 && other < 16 && ModeIndex(cpsr) < MODE_INV
    ensures ReadSpec(WriteSpec(rs, cpsr, reg, v), cpsr, other)
            == if other == reg then v else ReadSpec(rs, cpsr, other)
  {
    var c, d := Target(cpsr, reg), Target(cpsr, other);
    GetPut(rs, c, d, v);
    if other != reg {
      DistinctTargets(cpsr, reg, other);
    }
  }

  /** In a valid mode, two registers go through two different cells. */
  lemma DistinctTargets(cpsr: bv32, a: nat, b: nat)
    requires a < 16 && b < 16 && a != b && ModeIndex(cpsr) < MODE_INV
    ensures Target(cpsr, a) != Target(cpsr, b)
  {
    DistinctRegisters(a, b, ModeIndex(cpsr));
  }

  /** A write in one mode is seen by another mode exactly when the two name the same cell. */
  lemma WriteSeenAcrossModes(rs: Registers, cpsr: bv32, cpsr': bv32, reg: nat, v: bv32)
    requires Shaped(rs) && reg < 16 && ModeIndex(cpsr) < MODE_INV && ModeIndex(cpsr') < MODE_INV
    requires Target(cpsr, reg) != Target(cpsr', reg)
    ensures ReadSpec(WriteSpec(rs, cpsr, reg, v), cpsr', reg) == ReadSpec(rs, cpsr', reg)
  {
    GetPut(rs, Target(cpsr, reg), Target(cpsr', reg), v);
  }

  /** All cells of the table below `n` hold zero. */
  ghost predicate ZeroBelow(rs: Registers, n: nat)
    requires Shaped(rs)
  {
    forall k :: 0 <= k < n && k < 112 ==> Get(rs, RegisterMapping(k)) == 0
  }

  lemma ZeroStep(rs: Registers, n: nat)
    requires Shaped(rs) && n < 112 && ZeroBelow(rs, n)
    ensures ZeroBelow(Put(rs, RegisterMapping(n), 0), n + 1)
  {
    forall k | 0 <= k < n + 1 && k < 112
      ensures Get(Put(rs, RegisterMapping(n), 0), RegisterMapping(k)) == 0
    {
      GetPut(rs, RegisterMapping(n), RegisterMapping(k), 0);
    }
  }

  /** The register `reg` names in the mode with index `mi`. */
  function Visible(rs: Registers, reg: nat, mi: nat): bv32
    requires Shaped(rs) && reg < 16 && mi < 7
  {
    Get(rs, RegisterMapping(reg * 7 + mi))
  }

  lemma AllVisibleZero(rs: Registers)
    requires Shaped(rs) && ZeroBelow(rs, 112)
    ensures forall reg, mi :: reg < 16 && mi < 7 ==> Visible(rs, reg, mi) == 0
  {
  }

  /** The CPSR `init` leaves: mode SVC, F (bit 6) and I (bit 7) set, all else clear. */
  const INIT_CPSR: bv32 := 0xd3

  function WithMode(cpsr: bv32, mode: bv32): bv32 {
    (cpsr & !0x1f) | (mode & 0x1f)
  }

  lemma InitCpsr()
    ensures WithMode(0, PSR_MODE_SVC) | 0x40 | 0x80 == INIT_CPSR
    ensures ModeIndex(INIT_CPSR) == MODE_SVC
    ensures Bit(INIT_CPSR, 6) && Bit(INIT_CPSR, 7) && !Bit(INIT_CPSR, 5)
    ensures INIT_CPSR & 0xf000_0000 == 0
  {
    assert ModeBits(INIT_CPSR) == 19;
  }

  // ---------------------------------------------------------------- class

  /** The register arrays and the CPSR of cpu.cpp. */
  class Cpu {
    const r0_8: array<bv32>
    const r8_15_usr: array<bv32>
    const r8_14_fiq: array<bv32>
    const r13_14_svc: array<bv32>
    const r13_14_abt: array<bv32>
    const r13_14_irq: array<bv32>
    const r13_14_und: array<bv32>
    var cpsr: bv32

    ghost predicate Valid() {
      r0_8.Length == 8 && r8_15_usr.Length == 8 && r8_14_fiq.Length == 7 &&
      r13_14_svc.Length == 2 && r13_14_abt.Length == 2 &&
      r13_14_irq.Length == 2 && r13_14_und.Length == 2 &&
      r0_8 != r8_15_usr && r0_8 != r8_14_fiq && r0_8 != r13_14_svc && r0_8 != r13_14_abt &&
      r0_8 != r13_14_irq && r0_8 != r13_14_und &&
      r8_15_usr != r8_14_fiq && r8_15_usr != r13_14_svc && r8_15_usr != r13_14_abt &&
      r8_15_usr != r13_14_irq && r8_15_usr != r13_14_und &&
      r8_14_fiq != r13_14_svc && r8_14_fiq != r13_14_abt && r8_14_fiq != r13_14_irq &&
      r8_14_fiq != r13_14_und &&
      r13_14_svc != r13_14_abt && r13_14_svc != r13_14_irq && r13_14_svc != r13_14_und &&
      r13_14_abt != r13_14_irq && r13_14_abt != r13_14_und &&
      r13_14_irq != r13_14_und
    }

    ghost function Cells(): Registers
      reads r0_8, r8_15_usr, r8_14_fiq, r13_14_svc, r13_14_abt, r13_14_irq, r13_14_und
    {
      Registers(r0_8[..], r8_15_usr[..], r8_14_fiq[..], r13_14_svc[..], r13_14_abt[..],
                r13_14_irq[..], r13_14_und[..])
    }

    constructor ()
      ensures Valid() && cpsr == 0
    {
      r0_8 := new bv32[8];
      r8_15_usr := new bv32[8];
      r8_14_fiq := new bv32[7];
      r13_14_svc := new bv32[2];
      r13_14_abt := new bv32[2];
      r13_14_irq := new bv32[2];
      r13_14_und := new bv32[2];
      cpsr := 0;
    }

    /** `*cell`. */
    method Load(c: Cell) returns (v: bv32)
      requires Valid() && ValidCell(c)
      ensures Shaped(Cells()) && v == Get(Cells(), c)
    {
      match c.bank
      case Low => v := r0_8[c.index];
      case User => v := r8_15_usr[c.index];
      case Fiq => v := r8_14_fiq[c.index];
      case Svc => v := r13_14_svc[c.index];
      case Abt => v := r13_14_abt[c.index];
      case Irq => v := r13_14_irq[c.index];
      case Und => v := r13_14_und[c.index];
    }

    /** `*cell = v`. */
    method Store(c: Cell, v: bv32)
      requires Valid() && ValidCell(c)
      modifies r0_8, r8_15_usr, r8_14_fiq, r13_14_svc, r13_14_abt, r13_14_irq, r13_14_und
      ensures Shaped(old(Cells())) && Cells() == Put(old(Cells()), c, v)
    {
      match c.bank
      case Low => r0_8[c.index] := v;
      case User => r8_15_usr[c.index] := v;
      case Fiq => r8_14_fiq[c.index] := v;
      case Svc => r13_14_svc[c.index] := v;
      case Abt => r13_14_abt[c.index] := v;
      case Irq => r13_14_irq[c.index] := v;
      case Und => r13_14_und[c.index] := v;
    }

    /** `registerRead`: the register through the mapping entry at reg * 7 + mode index. */
    method RegisterRead(reg: nat) returns (value: bv32)
      requires Valid() && reg < 16 && Addressable(cpsr, reg)
      ensures Shaped(Cells()) && value == ReadSpec(Cells(), cpsr, reg)
    {
      value := Load(RegisterMapping(reg * 7 + ModeMapping[ModeBits(cpsr)]));
    }

    /** `registerWrite`: stores through the same entry; the CPSR is not touched. */
    method RegisterWrite(reg: nat, value: bv32)
      requires Valid() && reg < 16 && Addressable(cpsr, reg)
      modifies r0_8, r8_15_usr, r8_14_fiq, r13_14_svc, r13_14_abt, r13_14_irq, r13_14_und
      ensures Shaped(old(Cells())) && Cells() == WriteSpec(old(Cells()), cpsr, reg, value)
    {
      Store(RegisterMapping(reg * 7 + ModeMapping[ModeBits(cpsr)]), value);
    }

    /**
     * `init`: zeroes every cell through all 112 mapping entries, then sets the
     * CPSR to SVC mode with IRQ and FIQ disabled.
     */
    method Init()
      requires Valid()
      modifies this, r0_8, r8_15_usr, r8_14_fiq, r13_14_svc, r13_14_abt, r13_14_irq, r13_14_und
      ensures Shaped(Cells())
      ensures forall reg, mi :: reg < 16 && mi < 7 ==> Visible(Cells(), reg, mi) == 0
      ensures cpsr == INIT_CPSR && ModeIndex(cpsr) == MODE_SVC
    {
      var i := 0;
      while i < 7
        invariant 0 <= i <= 7 && Shaped(Cells()) && ZeroBelow(Cells(), i * 16)
      {
        var j := 0;
        while j < 16
          invariant 0 <= j <= 16 && Shaped(Cells()) && ZeroBelow(Cells(), i * 16 + j)
        {
          ZeroStep(Cells(), i * 16 + j);
          Store(RegisterMapping(i * 16 + j), 0);
          j := j + 1;
        }
        i := i + 1;
      }
      AllVisibleZero(Cells());
      cpsr := 0;
      cpsr := WithMode(cpsr, PSR_MODE_SVC);
      cpsr := cpsr | 0x40;
      cpsr := cpsr | 0x80;
      InitCpsr();
    }
  }
}
