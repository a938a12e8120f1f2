// The register list of the block transfers: the mask loop of
// src/core/cpu/op_arm_blockdatatransfer.c (lines 70-74 and
// `getFirstRegisterInList`, lines 126-140) and of
// src/core/cpu/op_thumb_multipleloadstore.c (lines 30-33 and 59-73), and the
// bit count of `hammingWeight16` in include/core/cpu/bitops.h (lines 44-53),
// shown to agree.

module CRegisterList {
  import opened Bits
  import CBitops

  /** One place left. */
  function Double(x: bv32): bv32 {
    x << 1
  }

  /** The mask of register `i`, built as the loops build it: 1 shifted left `i` times. */
  function Mask(i: nat): bv32 {
    if i == 0 then 1 else Double(Mask(i - 1))
  }

  predicate Tests(op: bv32, mask: bv32) {
    op & mask != 0
  }

  /** Register `i` is in the list of `op`. */
  predicate InList(op: bv32, i: nat) {
    Tests(op, Mask(i))
  }

  /** The listed registers from `i` on, lowest first. */
  function ListedFrom(op: bv32, i: nat, n: nat): (r: seq<nat>)
    ensures forall j :: 0 <= j < |r| ==> i <= r[j] < n
    decreases n - i, op
  {
    if i >= n then []
    else (if InList(op, i) then [i] else []) + ListedFrom(op, i + 1, n)
  }

  /** The listed registers among the `n` a list can name, lowest first. */
  function Listed(op: bv32, n: nat): seq<nat> {
    ListedFrom(op, 0, n)
  }

  /** The lowest listed register, `n` for an empty list. */
  function FirstListed(op: bv32, n: nat): nat {
    if Listed(op, n) == [] then n else Listed(op, n)[0]
  }

  /** `ListedFrom` holds exactly the listed registers from `i` to `n` - 1, in ascending order. */
  lemma {:induction false} ListedFromExactly(op: bv32, i: nat, n: nat)
    requires i <= n
    ensures forall x :: x in ListedFrom(op, i, n) <==> i <= x < n && InList(op, x)
    ensures Ascending(ListedFrom(op, i, n))
    ensures |ListedFrom(op, i, n)| <= n - i
    decreases n - i
  {
    if i < n {
      ListedFromExactly(op, i + 1, n);
      var rest := ListedFrom(op, i + 1, n);
      if InList(op, i) {
        assert ListedFrom(op, i, n) == [i] + rest;
        PrependAscending(i, rest);
      } else {
        assert ListedFrom(op, i, n) == rest;
      }
    }
  }

  predicate Ascending(s: seq<nat>) {
    forall j, k :: 0 <= j < k < |s| ==> s[j] < s[k]
  }

  lemma PrependAscending(x: nat, s: seq<nat>)
    requires Ascending(s) && forall y :: y in s ==> x < y
    ensures Ascending([x] + s)
  {
    forall j, k | 0 <= j < k < |[x] + s|
      ensures ([x] + s)[j] < ([x] + s)[k]
    {
      assert ([x] + s)[k] == s[k - 1] && s[k - 1] in s;
      if j > 0 {
        assert ([x] + s)[j] == s[j - 1];
      }
    }
  }

  /** Skipping registers that are not listed does not change the list. */
  lemma {:induction false} SkipUnlisted(op: bv32, i: nat, k: nat, n: nat)
    requires i <= k <= n
    requires forall j :: i <= j < k ==> !InList(op, j)
    ensures ListedFrom(op, i, n) == ListedFrom(op, k, n)
    decreases k - i
  {
    if i < k {
      SkipUnlisted(op, i + 1, k, n);
    }
  }

  // The C code tests `op & mask`; `hammingWeight16` shifts the halfword
  // right and tests bit 0, as CBitops.Listed does. The two are shown to
  // agree through the halfword test `HalfTest`.

  predicate Tests16(v: bv16, mask: bv16) {
    v & mask != 0
  }

  predicate HalfTest(v: bv16, i: nat) {
    Tests16(v, Lo16(Mask(i)))
  }

  /** `1 << b`, as line 120 writes the test of Rn, is the mask of register `b`. */
  lemma {:induction false} MaskIsShift(i: nat, b: bv32)
    requires i < 32 && b as nat == i
    ensures Mask(i) == 1 << b
  {
    if i > 0 {
      Predecessor(b, i);
      MaskIsShift(i - 1, b - 1);
      ShiftOnce(b);
    }
  }

  lemma Predecessor(b: bv32, i: nat)
    requires 0 < b < 32 && b as nat == i
    ensures (b - 1) as nat == i - 1
  {
  }

  lemma ShiftOnce(b: bv32)
    requires 0 < b < 32
    ensures Double(1 << (b - 1)) == 1 << b
  {
  }

  lemma ShiftBelow(b: bv32)
    requires b < 16
    ensures ((1 as bv32) << b) & 0xffff_0000 == 0
  {
  }

  lemma MaskLow(i: nat)
    requires i < 16
    ensures Mask(i) & 0xffff_0000 == 0
  {
    MaskIsShift(i, i as bv32);
    ShiftBelow(i as bv32);
  }

  lemma Narrow(op: bv32, mask: bv32)
    requires mask & 0xffff_0000 == 0
    ensures Tests(op, mask) <==> Tests16(Lo16(op), Lo16(mask))
  {
  }

  /** Below 16 the word mask tests the low halfword. */
  lemma MaskTest(op: bv32, i: nat)
    requires i < 16
    ensures InList(op, i) <==> HalfTest(Lo16(op), i)
  {
    MaskLow(i);
    Narrow(op, Mask(i));
  }

  lemma {:induction false} ShrFirst(v: bv16, k: nat)
    requires k > 0
    ensures CBitops.Shr(v, k) == CBitops.Shr(CBitops.Half(v), k - 1)
  {
    if k > 1 {
      ShrFirst(v, k - 1);
    }
  }

  lemma ShiftedTest(v: bv16, m: bv32)
    ensures Tests16(CBitops.Half(v), Lo16(m)) <==> Tests16(v, Lo16(Double(m)))
  {
  }

  lemma LowestBit(v: bv16)
    ensures CBitops.Listed(v, 0) <==> HalfTest(v, 0)
  {
    LowestMask(v);
  }

  lemma LowestMask(v: bv16)
    ensures v & 1 == 1 <==> Tests16(v, Lo16(1))
  {
  }

  lemma BitStep(v: bv16, k: nat)
    requires 0 < k
    requires CBitops.Listed(CBitops.Half(v), k - 1) <==> HalfTest(CBitops.Half(v), k - 1)
    ensures CBitops.Listed(v, k) <==> HalfTest(v, k)
  {
    ShrFirst(v, k);
    ShiftedTest(v, Mask(k - 1));
  }

  /** Shifting right `k` times and testing bit 0 tests the mask of bit `k`. */
  lemma {:induction false} ShiftedOutIsMasked(v: bv16, k: nat)
    ensures CBitops.Listed(v, k) <==> HalfTest(v, k)
  {
    if k == 0 {
      LowestBit(v);
    } else {
      ShiftedOutIsMasked(CBitops.Half(v), k - 1);
      BitStep(v, k);
    }
  }

  /** The loop's mask test and the counting loop's shifted bit agree. */
  lemma InListIsCounted(op: bv32, i: nat)
    requires i < 16
    ensures InList(op, i) <==> CBitops.Listed(Lo16(op), i)
  {
    MaskTest(op, i);
    ShiftedOutIsMasked(Lo16(op), i);
  }

  /** The listed registers from `i` to `n` - 1 are the ones the counting loop finds between those bits. */
  lemma {:induction false} ListedCountFrom(op: bv32, i: nat, n: nat)
    requires i <= n <= 16
    ensures |ListedFrom(op, i, n)| + CBitops.Ones(Lo16(op), i) == CBitops.Ones(Lo16(op), n)
    decreases n - i
  {
    if i < n {
      ListedCountFrom(op, i + 1, n);
      InListIsCounted(op, i);
    }
  }

  /** `hammingWeight16(op)` is the length of the register list. */
  lemma ListedCount(op: bv32)
    ensures |Listed(op, 16)| == CBitops.Ones(Lo16(op), 16)
  {
    ListedCountFrom(op, 0, 16);
  }

  /** The list is empty exactly when bits 15-0 of the opcode are clear. */
  lemma EmptyList(op: bv32)
    ensures Listed(op, 16) == [] <==> op & 0xffff == 0
  {
    ListedCount(op);
    CBitops.OnesZero(Lo16(op));
    LowHalfZero(op);
  }

  lemma LowHalfZero(op: bv32)
    ensures Lo16(op) == 0 <==> op & 0xffff == 0
  {
  }

  /** A register that is listed with none listed below it is the first. */
  lemma IsFirst(op: bv32, index: nat, n: nat)
    requires index <= n && (index < n ==> InList(op, index))
    requires forall j :: 0 <= j < index ==> !InList(op, j)
    ensures index == FirstListed(op, n)
  {
    SkipUnlisted(op, 0, index, n);
  }

  /**
   * `getFirstRegisterInList` of the ARM (`n` = 16) and Thumb (`n` = 8)
   * block transfers: the index of the lowest listed register, `n` for an
   * empty list.
   */
  method FirstRegisterInList(op: bv32, n: nat) returns (index: nat)
    ensures index == FirstListed(op, n)
    ensures index <= n && (index < n ==> InList(op, index))
    ensures forall j :: 0 <= j < index ==> !InList(op, j)
  {
    index := 0;
    var mask: bv32 := 1;
    while index < n
      invariant index <= n && mask == Mask(index)
      invariant forall j :: 0 <= j < index ==> !InList(op, j)
    {
      if Tests(op, mask) {
        break;
      }
      index := index + 1;
      mask := Double(mask);
    }
    IsFirst(op, index, n);
  }
}
