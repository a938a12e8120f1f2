// src/core/cpu/op_thumb_multipleloadstore.c: LDMIA and STMIA
// (`cpuOpcodeThumbMultipleLoadStore`) over the CPU state of CCpu. Bus reads
// are a function of the address; bus writes are returned in order, as
// CArmBlockTransfer returns them.

module CThumbMultiple {
  import opened Bits
  import CBitops
  import opened CRegisterList
  import opened CCpu
  import Block = CArmBlockTransfer

  /** Lines 10-16: the opcode's fields and the values computed before any register moves. */
  datatype Setup = Setup(load: bool, rb: nat, empty: bool, rbFirst: bool, base: bv32, count: nat)

  /** The opcode as the word the register list is tested in. */
  function Wide(op: bv16): bv32 {
    op as bv32
  }

  /** Lines 10-16: L, Rb, whether the list is empty, whether Rb is its first register, Rb and `hammingWeight8`. */
  function SetupOf(r: seq<bv32>, op: bv16): (c: Setup)
    requires |r| == 16
    ensures c.rb < 8
  {
    var rb := Field3(Wide(op), 8);
    Setup(Flag(Wide(op), 0x800), rb, op & 0xff == 0, rb == FirstListed(Wide(op), 8), r[rb],
          CBitops.Ones(Lo8(op) as bv16, 8))
  }

  /** The address `span` bytes past `base`. */
  function Past(base: bv32, span: bv32): bv32 {
    base + span
  }

  /** Line 43: the final base, `4 * count` bytes past the base. */
  function FinalBase(c: Setup): bv32 {
    Past(c.base, Block.Span(c.count))
  }

  /** Lines 37-46: the word an STMIA writes for register `i`. */
  function Stored(c: Setup, r: seq<bv32>, i: nat): bv32
    requires |r| == 16 && i < 8
  {
    if i == c.rb && !c.rbFirst then FinalBase(c) else r[i]
  }

  /** Lines 34-48: the transfer of listed register `i` at `address`. */
  function Move(c: Setup, s: CpuState, i: nat, address: bv32, read32: bv32 -> bv32): (o: Block.Outcome)
    requires Good(s) && i < 8
    ensures Good(o.s)
  {
    if c.load then Block.Outcome(SetR(s, i, read32(address)), [])
    else Block.Outcome(s, [Block.BusWrite(address, Stored(c, s.banks.r, i))])
  }

  /** Lines 30-53: r0-r7 from `i` on, each listed one at the next word. */
  function Walk(c: Setup, w: bv32, s: CpuState, i: nat, address: bv32, read32: bv32 -> bv32): (o: Block.Outcome)
    requires Good(s) && i <= 8
    ensures Good(o.s)
    decreases 8 - i, w
  {
    if i == 8 then Block.Outcome(s, [])
    else if InList(w, i) then
      var m := Move(c, s, i, address, read32);
      Block.Then(m.effects, Walk(c, w, m.s, i + 1, address + 4, read32))
    else Walk(c, w, s, i + 1, address, read32)
  }

  /**
   * Lines 26-56: the walk from the base, then Rb becomes the offset the
   * loop ends at. With
   * `corrected`, an LDMIA that lists Rb keeps the word it loaded into Rb.
   */
  function ListTransfer(c: Setup, w: bv32, s: CpuState, read32: bv32 -> bv32, corrected: bool): (o: Block.Outcome)
    requires Good(s) && c.rb < 8
    ensures Good(o.s)
  {
    var walked := Walk(c, w, s, 0, c.base, read32);
    if corrected && c.load && InList(w, c.rb) then walked
    else Block.Outcome(WriteRegisterSpec(walked.s, c.rb, End(w, 0, c.base)), walked.effects)
  }

  /** Lines 30-53: the offset the loop reaches from register `i` and `address`, four bytes on per listed register. */
  function End(w: bv32, i: nat, address: bv32): bv32
    requires i <= 8
    decreases 8 - i, w
  {
    if i == 8 then address
    else if InList(w, i) then End(w, i + 1, address + 4)
    else End(w, i + 1, address)
  }

  /** Lines 18-25: an empty list moves R15 at the base, and Rb moves 0x40 bytes on. */
  function EmptyTransfer(c: Setup, s: CpuState, read32: bv32 -> bv32): (o: Block.Outcome)
    requires Good(s) && c.rb < 8
    ensures Good(o.s)
  {
    var moved := if c.load then Block.Outcome(JumpSpec(s, read32(c.base)), [])
                 else Block.Outcome(s, [Block.BusWrite(c.base, s.banks.r[15] + 2)]);
    Block.Outcome(WriteRegisterSpec(moved.s, c.rb, c.base + 0x40), moved.effects)
  }

  /** `cpuOpcodeThumbMultipleLoadStore`, as written or with an LDMIA that lists Rb corrected. */
  function Transfer(s: CpuState, op: bv16, read32: bv32 -> bv32, corrected: bool): (o: Block.Outcome)
    requires Good(s)
    ensures Good(o.s)
  {
    var c := SetupOf(s.banks.r, op);
    if c.empty then EmptyTransfer(c, s, read32) else ListTransfer(c, Wide(op), s, read32, corrected)
  }

  // ------------------------------------------------------------ the methods

  /** `cpuOpcodeThumbMultipleLoadStore`. */
  method MultipleLoadStore(cpu: Cpu, op: bv16, read32: bv32 -> bv32) returns (effects: seq<Block.Effect>)
    requires cpu.Valid()
    modifies cpu, cpu.r
    ensures cpu.Valid() && Block.Outcome(cpu.State(), effects) == Transfer(old(cpu.State()), op, read32, false)
  {
    var c := Prepare(cpu, op);
    if c.empty {
      effects := EmptyCase(cpu, c, read32);
    } else {
      effects := ListCase(cpu, c, op, read32);
    }
  }

  /** Lines 10-16. */
  method Prepare(cpu: Cpu, op: bv16) returns (c: Setup)
    requires cpu.Valid()
    ensures c == SetupOf(cpu.r[..], op)
  {
    var load := Flag(Wide(op), 0x800);
    var rb := Field3(Wide(op), 8);
    var empty := op & 0xff == 0;
    var first := FirstRegisterInList(Wide(op), 8);
    var base := cpu.r[rb];
    var count := CBitops.HammingWeight8(Lo8(op));
    c := Setup(load, rb, empty, rb == first, base, count);
  }

  /** Lines 18-25. */
  method EmptyCase(cpu: Cpu, c: Setup, read32: bv32 -> bv32) returns (effects: seq<Block.Effect>)
    requires cpu.Valid() && c.rb < 8
    modifies cpu, cpu.r
    ensures cpu.Valid() && Block.Outcome(cpu.State(), effects) == EmptyTransfer(c, old(cpu.State()), read32)
  {
    if c.load {
      cpu.Jump(read32(c.base));
      effects := [];
    } else {
      effects := [Block.BusWrite(c.base, cpu.r[15] + 2)];
    }
    cpu.WriteRegister(c.rb, c.base + 0x40);
  }

  /** Lines 26-56: line 55 leaves Rb where the loop's offset ends, one word past the base for each listed register. */
  method ListCase(cpu: Cpu, c: Setup, op: bv16, read32: bv32 -> bv32) returns (effects: seq<Block.Effect>)
    requires cpu.Valid() && c == SetupOf(cpu.r[..], op)
    modifies cpu, cpu.r
    ensures cpu.Valid() && Block.Outcome(cpu.State(), effects) == ListTransfer(c, Wide(op), old(cpu.State()), read32, false)
  {
    CountIsListed(cpu.r[..], op);
    var offset;
    effects, offset := WalkList(cpu, c, Wide(op), read32);
    cpu.WriteRegister(c.rb, offset);
  }

  /** Lines 27-53: the loop, from the base. */
  method WalkList(cpu: Cpu, c: Setup, w: bv32, read32: bv32 -> bv32) returns (effects: seq<Block.Effect>, offset: bv32)
    requires cpu.Valid() && c.rb < 8 && c.base == cpu.r[c.rb]
    modifies cpu, cpu.r
    ensures cpu.Valid() && offset == End(w, 0, c.base)
    ensures Block.Outcome(cpu.State(), effects) == Walk(c, w, old(cpu.State()), 0, c.base, read32)
  {
    ghost var s0 := cpu.State();
    offset := cpu.r[c.rb];
    var index: nat := 0;
    var mask: bv32 := 1;
    effects := [];
    while index < 8
      invariant cpu.Valid() && index <= 8 && mask == Mask(index)
      invariant End(w, index, offset) == End(w, 0, c.base)
      invariant Block.Then(effects, Walk(c, w, cpu.State(), index, offset, read32)) == Walk(c, w, s0, 0, c.base, read32)
    {
      effects, offset := WalkStep(cpu, c, w, index, mask, offset, effects, read32);
      index := index + 1;
      mask := Double(mask);
    }
    assert effects + [] == effects;
  }

  /** Lines 31-52: one pass of the loop. */
  method WalkStep(cpu: Cpu, c: Setup, w: bv32, index: nat, mask: bv32, offset: bv32, done: seq<Block.Effect>,
                  read32: bv32 -> bv32) returns (effects: seq<Block.Effect>, next: bv32)
    requires cpu.Valid() && index < 8 && mask == Mask(index)
    modifies cpu, cpu.r
    ensures cpu.Valid() && End(w, index + 1, next) == End(w, index, offset)
    ensures Block.Then(effects, Walk(c, w, cpu.State(), index + 1, next, read32))
            == Block.Then(done, Walk(c, w, old(cpu.State()), index, offset, read32))
  {
    if Tests(w, mask) {
      var e := MoveRegister(cpu, c, index, offset, read32);
      Block.ThenThen(done, e, Walk(c, w, cpu.State(), index + 1, offset + 4, read32));
      effects := done + e;
      next := offset + 4;
    } else {
      effects := done;
      next := offset;
    }
  }

  /** Lines 34-48: one listed register. */
  method MoveRegister(cpu: Cpu, c: Setup, i: nat, address: bv32, read32: bv32 -> bv32)
    returns (effects: seq<Block.Effect>)
    requires cpu.Valid() && i < 8
    modifies cpu.r
    ensures cpu.Valid() && Block.Outcome(cpu.State(), effects) == Move(c, old(cpu.State()), i, address, read32)
  {
    if c.load {
      LoadRegister(cpu, i, read32(address));
      effects := [];
    } else {
      var value := StoredValue(cpu, c, i);
      effects := [Block.BusWrite(address, value)];
    }
  }

  /** Lines 37-46. */
  method StoredValue(cpu: Cpu, c: Setup, i: nat) returns (value: bv32)
    requires cpu.Valid() && i < 8
    ensures value == Stored(c, cpu.r[..], i)
  {
    if i == c.rb && !c.rbFirst {
      value := FinalBase(c);
    } else {
      value := cpu.r[i];
    }
  }

  /** Line 35: the word is stored in the register array itself. */
  method LoadRegister(cpu: Cpu, i: nat, value: bv32)
    requires cpu.Valid() && i < 8
    modifies cpu.r
    ensures cpu.Valid() && cpu.State() == SetR(old(cpu.State()), i, value)
  {
    cpu.r[i] := value;
  }

  // ------------------------------------------------------------ properties

  /** Testing the halfword opcode's low byte, or the byte `hammingWeight8` is given, is the same. */
  lemma ByteListed(op: bv16, i: nat)
    requires i < 8
    ensures InList(Wide(op), i) <==> CBitops.Listed(Lo8(op) as bv16, i)
  {
    MaskIsShift(i, i as bv32);
    ByteMask(op, i as bv32);
    InListIsCounted(Lo8(op) as bv32, i);
    assert Lo16(Lo8(op) as bv32) == Lo8(op) as bv16;
  }

  lemma ByteMask(op: bv16, b: bv32)
    requires b < 8
    ensures Tests(Wide(op), 1 << b) <==> Tests(Lo8(op) as bv32, 1 << b)
  {
  }

  /** The count of the low byte below bit `n` is the listed r0-r7 below `n`. */
  lemma {:induction false} ByteCount(op: bv16, n: nat)
    requires n <= 8
    ensures CBitops.Ones(Lo8(op) as bv16, n) == |ListedFrom(Wide(op), 0, n)|
    decreases n
  {
    ListedCountFrom(Wide(op), 0, n);
    if n > 0 {
      ByteCount(op, n - 1);
      ListedCountFrom(Wide(op), 0, n - 1);
      ByteListed(op, n - 1);
      InListIsCounted(Wide(op), n - 1);
      assert Lo16(Wide(op)) == op;
    }
  }

  /**
   * `hammingWeight8` of the opcode counts r0-r7 in the list, and line 12
   * finds the list empty exactly when none of them is listed.
   */
  lemma CountIsListed(r: seq<bv32>, op: bv16)
    requires |r| == 16
    ensures SetupOf(r, op).count == |Listed(Wide(op), 8)|
    ensures SetupOf(r, op).empty <==> Listed(Wide(op), 8) == []
  {
    ByteCount(op, 8);
    CBitops.ByteOnes(Lo8(op));
    CBitops.OnesZero(Lo8(op) as bv16);
    assert Lo8(op) as bv16 == 0 <==> op & 0xff == 0;
  }

  /** Rb counts as first (line 14) exactly when it is at place 0 of the list. */
  lemma RbFirst(r: seq<bv32>, op: bv16, j: nat)
    requires |r| == 16
    requires j < |Listed(Wide(op), 8)| && Listed(Wide(op), 8)[j] == SetupOf(r, op).rb
    ensures SetupOf(r, op).rbFirst <==> j == 0
  {
    FirstAt(Wide(op), j);
  }

  /** Register `j` of a list is its first exactly when `j` is 0. */
  lemma FirstAt(w: bv32, j: nat)
    requires j < |Listed(w, 8)|
    ensures FirstListed(w, 8) == Listed(w, 8)[j] <==> j == 0
  {
    ListedFromExactly(w, 0, 8);
    assert Ascending(Listed(w, 8));
  }

  /** The loop's offset moves one word per listed register. */
  lemma {:induction false} EndIsWord(w: bv32, i: nat, address: bv32)
    requires i <= 8
    ensures End(w, i, address) == Block.Word(address, |ListedFrom(w, i, 8)|)
    decreases 8 - i
  {
    if i < 8 {
      if InList(w, i) {
        EndIsWord(w, i + 1, address + 4);
        assert ListedFrom(w, i, 8) == [i] + ListedFrom(w, i + 1, 8);
      } else {
        EndIsWord(w, i + 1, address);
      }
    }
  }

  lemma WordSpan0(address: bv32, j: nat)
    requires j == 0
    ensures Block.Word(address, j) == Past(address, Block.Span(j))
  {
  }

  lemma WordSpan1(address: bv32, j: nat)
    requires j == 1
    ensures Block.Word(address, j) == Past(address, Block.Span(j))
  {
  }

  lemma WordSpan2(address: bv32, j: nat)
    requires j == 2
    ensures Block.Word(address, j) == Past(address, Block.Span(j))
  {
  }

  lemma WordSpan3(address: bv32, j: nat)
    requires j == 3
    ensures Block.Word(address, j) == Past(address, Block.Span(j))
  {
  }

  lemma WordSpan4(address: bv32, j: nat)
    requires j == 4
    ensures Block.Word(address, j) == Past(address, Block.Span(j))
  {
  }

  lemma WordSpan5(address: bv32, j: nat)
    requires j == 5
    ensures Block.Word(address, j) == Past(address, Block.Span(j))
  {
  }

  lemma WordSpan6(address: bv32, j: nat)
    requires j == 6
    ensures Block.Word(address, j) == Past(address, Block.Span(j))
  {
  }

  lemma WordSpan7(address: bv32, j: nat)
    requires j == 7
    ensures Block.Word(address, j) == Past(address, Block.Span(j))
  {
  }

  lemma WordSpan8(address: bv32, j: nat)
    requires j == 8
    ensures Block.Word(address, j) == Past(address, Block.Span(j))
  {
  }

  /** The block of `j` words from `address` ends `4 * j` bytes on (`j` is at most 8 here), one literal case at a time. */
  lemma WordSpanAt(address: bv32, j: nat)
    requires j <= 8
    ensures Block.Word(address, j) == Past(address, Block.Span(j))
  {
    if j == 0 {
      WordSpan0(address, j);
    } else if j == 1 {
      WordSpan1(address, j);
    } else if j == 2 {
      WordSpan2(address, j);
    } else if j == 3 {
      WordSpan3(address, j);
    } else if j == 4 {
      WordSpan4(address, j);
    } else if j == 5 {
      WordSpan5(address, j);
    } else if j == 6 {
      WordSpan6(address, j);
    } else if j == 7 {
      WordSpan7(address, j);
    } else {
      WordSpan8(address, j);
    }
  }

  /** From `base`, the loop's offset ends `4 * count` bytes on, for the `count` listed registers. */
  lemma EndAt(w: bv32, base: bv32, count: nat)
    requires count == |ListedFrom(w, 0, 8)|
    ensures End(w, 0, base) == Past(base, Block.Span(count))
  {
    ListedFromExactly(w, 0, 8);
    EndIsWord(w, 0, base);
    WordSpanAt(base, count);
  }

  /** Line 55 leaves Rb at the final base that line 43 stores for it: the loop moves it `4 * count` bytes. */
  lemma EndIsFinalBase(r: seq<bv32>, op: bv16)
    requires |r| == 16
    ensures End(Wide(op), 0, SetupOf(r, op).base) == FinalBase(SetupOf(r, op))
  {
    var c := SetupOf(r, op);
    CountIsListed(r, op);
    EndAt(Wide(op), c.base, c.count);
  }

  // ------------------------------------------------- moves of the registers

  /** The words an STMIA writes for `regs` in order, one word apart from `address` on. */
  function Stores(c: Setup, r: seq<bv32>, regs: seq<nat>, address: bv32): (e: seq<Block.Effect>)
    requires |r| == 16 && forall j :: 0 <= j < |regs| ==> regs[j] < 8
    ensures |e| == |regs|
  {
    if regs == [] then []
    else [Block.BusWrite(address, Stored(c, r, regs[0]))] + Stores(c, r, regs[1..], address + 4)
  }

  /** Write `j` of `Stores` is that of register `regs[j]` at word `j`. */
  lemma {:induction false} StoresAt(c: Setup, r: seq<bv32>, regs: seq<nat>, address: bv32, j: nat)
    requires |r| == 16 && forall j :: 0 <= j < |regs| ==> regs[j] < 8
    requires j < |regs|
    ensures Stores(c, r, regs, address)[j] == Block.BusWrite(Block.Word(address, j), Stored(c, r, regs[j]))
  {
    if j > 0 {
      StoresAt(c, r, regs[1..], address + 4, j - 1);
      assert regs[1..][j - 1] == regs[j];
    }
  }

  /** An STMIA's walk changes no register and writes the listed registers, lowest first at ascending words. */
  lemma {:induction false} WalkStores(c: Setup, w: bv32, s: CpuState, i: nat, address: bv32, read32: bv32 -> bv32)
    requires Good(s) && i <= 8 && !c.load
    ensures Walk(c, w, s, i, address, read32) == Block.Outcome(s, Stores(c, s.banks.r, ListedFrom(w, i, 8), address))
    decreases 8 - i
  {
    if i < 8 {
      WalkStores(c, w, s, i + 1, address + 4, read32);
      WalkStores(c, w, s, i + 1, address, read32);
      var rest := ListedFrom(w, i + 1, 8);
      if InList(w, i) {
        assert ListedFrom(w, i, 8) == [i] + rest;
        assert ([i] + rest)[1..] == rest;
      } else {
        assert ListedFrom(w, i, 8) == rest;
      }
    }
  }

  /** One load of an LDMIA: register `i` gets the word read and every other register and the CPSR keep theirs. */
  lemma MoveLoads(c: Setup, s: CpuState, i: nat, address: bv32, read32: bv32 -> bv32, k: nat)
    requires Good(s) && i < 8 && c.load && k < 16
    ensures var m := Move(c, s, i, address, read32);
            m.effects == [] && m.s.psr == s.psr && m.s.banks.r[k] == if k == i then read32(address) else s.banks.r[k]
  {
  }

  /** An LDMIA's walk writes nothing and keeps the CPSR. */
  lemma {:induction false} WalkLoadsQuietly(c: Setup, w: bv32, s: CpuState, i: nat, address: bv32, read32: bv32 -> bv32)
    requires Good(s) && i <= 8 && c.load
    ensures Walk(c, w, s, i, address, read32).effects == []
    ensures Walk(c, w, s, i, address, read32).s.psr == s.psr
    decreases 8 - i
  {
    if i < 8 {
      if InList(w, i) {
        var m := Move(c, s, i, address, read32);
        MoveLoads(c, s, i, address, read32, 0);
        WalkLoadsQuietly(c, w, m.s, i + 1, address + 4, read32);
      } else {
        WalkLoadsQuietly(c, w, s, i + 1, address, read32);
      }
    }
  }

  /** A listed register `i` below `k` puts the words of the registers from `i + 1` one word further on. */
  lemma ListedStep(w: bv32, i: nat, k: nat, address: bv32)
    requires i < k && InList(w, i)
    ensures Block.Word(address, |ListedFrom(w, i, k)|) == Block.Word(address + 4, |ListedFrom(w, i + 1, k)|)
  {
    assert ListedFrom(w, i, k) == [i] + ListedFrom(w, i + 1, k);
  }

  /**
   * An LDMIA's walk: each listed register from `i` on gets the word at its
   * place in the list and every other register keeps its value.
   */
  lemma {:induction false} WalkLoads(c: Setup, w: bv32, s: CpuState, i: nat, address: bv32, read32: bv32 -> bv32, k: nat)
    requires Good(s) && i <= 8 && c.load && k < 16
    ensures Walk(c, w, s, i, address, read32).s.banks.r[k]
            == if i <= k < 8 && InList(w, k) then read32(Block.Word(address, |ListedFrom(w, i, k)|)) else s.banks.r[k]
    decreases 8 - i
  {
    if i < 8 {
      if InList(w, i) {
        var m := Move(c, s, i, address, read32);
        MoveLoads(c, s, i, address, read32, k);
        WalkLoads(c, w, m.s, i + 1, address + 4, read32, k);
        if i < k {
          ListedStep(w, i, k, address);
        }
      } else {
        WalkLoads(c, w, s, i + 1, address, read32, k);
        if i < k {
          assert ListedFrom(w, i, k) == ListedFrom(w, i + 1, k);
        }
      }
    }
  }

  /**
   * An STMIA of a non-empty list (lines 26-56): listed register `j` in
   * ascending order is written at word `j` from the base, Rb as the final
   * base unless it is the first listed; afterwards Rb holds the final base,
   * `4 * count` bytes past the base, and no other register changes.
   */
  lemma StoresListed(s: CpuState, op: bv16, read32: bv32 -> bv32, corrected: bool)
    requires Good(s) && op & 0xff != 0 && op & 0x800 == 0
    ensures var c := SetupOf(s.banks.r, op);
            var regs := Listed(Wide(op), 8);
            var o := Transfer(s, op, read32, corrected);
            |o.effects| == |regs| == c.count &&
            (forall j :: 0 <= j < |regs| ==>
               o.effects[j] == Block.BusWrite(Block.Word(c.base, j), Stored(c, s.banks.r, regs[j]))) &&
            o.s == WriteRegisterSpec(s, c.rb, FinalBase(c))
  {
    var c := SetupOf(s.banks.r, op);
    var regs := Listed(Wide(op), 8);
    CountIsListed(s.banks.r, op);
    StoreFlag(op);
    EndIsFinalBase(s.banks.r, op);
    WalkStores(c, Wide(op), s, 0, c.base, read32);
    forall j | 0 <= j < |regs|
      ensures Stores(c, s.banks.r, regs, c.base)[j] == Block.BusWrite(Block.Word(c.base, j), Stored(c, s.banks.r, regs[j]))
    {
      StoresAt(c, s.banks.r, regs, c.base, j);
    }
  }

  lemma StoreFlag(op: bv16)
    ensures Flag(Wide(op), 0x800) <==> op & 0x800 != 0
  {
  }

  /**
   * An LDMIA of a non-empty list (lines 26-56) writes nothing and keeps the
   * CPSR; each listed register gets the word at its place in the list from
   * the base and the others keep their values, except Rb. As written, Rb
   * ends at the final base even when it is listed and was loaded;
   * corrected, a listed Rb keeps the word it loaded.
   */
  lemma LoadsListed(s: CpuState, op: bv16, read32: bv32 -> bv32, corrected: bool, k: nat)
    requires Good(s) && op & 0xff != 0 && op & 0x800 != 0 && k < 15
    ensures var c := SetupOf(s.banks.r, op);
            var o := Transfer(s, op, read32, corrected);
            o.effects == [] && o.s.psr == s.psr &&
            o.s.banks.r[k] == if k == c.rb && !(corrected && InList(Wide(op), k)) then FinalBase(c)
                              else if k < 8 && InList(Wide(op), k) then read32(Block.Word(c.base, |ListedFrom(Wide(op), 0, k)|))
                              else s.banks.r[k]
  {
    var c := SetupOf(s.banks.r, op);
    var w := Walk(c, Wide(op), s, 0, c.base, read32);
    CountIsListed(s.banks.r, op);
    StoreFlag(op);
    EndIsFinalBase(s.banks.r, op);
    WalkLoads(c, Wide(op), s, 0, c.base, read32, k);
    WalkLoadsQuietly(c, Wide(op), s, 0, c.base, read32);
    WriteRegisterAt(w.s, c.rb, FinalBase(c), k);
  }

  /** 0xc801 is LDMIA r0!, {r0}: a non-empty list that holds r0, the base. */
  lemma LoadBaseOpcode(r: seq<bv32>)
    requires |r| == 16
    ensures var c := SetupOf(r, 0xc801);
            c.rb == 0 && c.count == 1 && InList(Wide(0xc801), 0) && ListedFrom(Wide(0xc801), 0, 0) == []
  {
    CountIsListed(r, 0xc801);
    MaskIsShift(0, 0);
    ListedFromExactly(Wide(0xc801), 0, 8);
    assert Listed(Wide(0xc801), 8) == [0];
  }

  /**
   * As written, LDMIA r0!, {r0} loses the word it loads into r0: r0 ends one
   * word past the base (0x0300_0004 from 0x0300_0000) whatever the bus
   * holds, where the architecture keeps the loaded word (0x1234 here).
   */
  lemma LoadBaseCounterexample(s: CpuState)
    requires Good(s) && s.banks.r[0] == 0x0300_0000
    ensures Transfer(s, 0xc801, a => 0x1234, false).s.banks.r[0] == 0x0300_0004
    ensures Transfer(s, 0xc801, a => 0x1234, true).s.banks.r[0] == 0x1234
  {
    LoadBaseOpcode(s.banks.r);
    LoadsListed(s, 0xc801, a => 0x1234, false, 0);
    LoadsListed(s, 0xc801, a => 0x1234, true, 0);
    WordSpan1(0x0300_0000, 1);
  }
}
