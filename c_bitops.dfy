// include/core/cpu/bitops.h: the inline bit helpers of the C core's CPU.
// The C `uint32_t`, `uint16_t` and `uint8_t` values are bv32, bv16 and bv8;
// the `int` bit counts are naturals. The flag setters of the same header
// change CPU state and are methods of CCpu.Cpu.

module CBitops {
  import opened Bits
  import ArmRef

  /**
   * `rotateRight`: `(v >> r) | (v << (32 - r))`. For r = 0 the left shift
   * would be by 32, which C leaves undefined, so the callers keep r in 1..31.
   */
  function RotateRight(v: bv32, r: bv32): bv32
    requires 0 < r < 32
  {
    (v >> r) | (v << (32 - r))
  }

  /** Rotating by r and then by 32 - r gives the word back. */
  lemma RotateRightInverse(v: bv32, r: bv32)
    requires 0 < r < 32
    ensures RotateRight(RotateRight(v, r), 32 - r) == v
  {
    RotateRightIsRor(v, r);
    RotateRightIsRor(RotateRight(v, r), 32 - r);
    ArmRef.RorInverse(v, r);
  }

  /** The rotation is the ARM reference's ROR. */
  lemma RotateRightIsRor(v: bv32, r: bv32)
    requires 0 < r < 32
    ensures RotateRight(v, r) == ArmRef.Ror(v, r)
  {
  }

  /** `(int8_t)v` converted back to `uint32_t`. */
  function SignExtend8to32(v: bv8): (w: bv32)
    ensures w & 0xff == v as bv32
    ensures forall k: bv32 :: 8 <= k < 32 ==> (Bit(w, k) <==> Bit(v as bv32, 7))
  {
    if v & 0x80 != 0 then (v as bv32) | 0xffff_ff00 else v as bv32
  }

  /** `(int16_t)v` converted back to `uint32_t`. */
  function SignExtend16to32(v: bv16): (w: bv32)
    ensures w & 0xffff == v as bv32
    ensures forall k: bv32 :: 16 <= k < 32 ==> (Bit(w, k) <==> Bit(v as bv32, 15))
  {
    if v & 0x8000 != 0 then (v as bv32) | 0xffff_0000 else v as bv32
  }

  /** `((int32_t)(v << 6)) >> 6`: the branch offset of B and BL. */
  function SignExtend26to32(v: bv32): bv32 {
    Asr(v << 6, 6)
  }

  /** The low 26 bits are kept and bits 31:26 become copies of bit 25. */
  lemma SignExtend26(v: bv32)
    ensures SignExtend26to32(v) == if v & 0x200_0000 != 0 then v | 0xfc00_0000 else v & 0x3ff_ffff
  {
    if v & 0x200_0000 != 0 {
      FillOnes(v);
      assert Sign(v << 6);
    } else {
      FillZeros(v);
      assert !Sign(v << 6);
    }
  }

  lemma FillOnes(v: bv32)
    ensures !((!(v << 6)) >> 6) == v | 0xfc00_0000
  {
  }

  lemma FillZeros(v: bv32)
    ensures (v << 6) >> 6 == v & 0x3ff_ffff
  {
  }

  /** `(int64_t)(int32_t)v`: the two's complement value of the word. */
  function SignExtend32to64(v: bv32): (x: int)
    ensures -0x8000_0000 <= x < 0x8000_0000
    ensures x < 0 <==> Sign(v)
  {
    SignIsTopByte(v);
    UnsignedBelow(v);
    if Sign(v) then Unsigned(v) - 0x1_0000_0000 else Unsigned(v)
  }

  /** The 64-bit value is congruent to the word's unsigned value modulo 2^32. */
  lemma SignExtend32to64Wraps(v: bv32)
    ensures SignExtend32to64(v) % 0x1_0000_0000 == Unsigned(v)
  {
    UnsignedBelow(v);
    WrapsBelow(Unsigned(v), SignExtend32to64(v));
  }

  lemma WrapsBelow(u: nat, x: int)
    requires u < 0x1_0000_0000 && (x == u || x == u - 0x1_0000_0000)
    ensures x % 0x1_0000_0000 == u
  {
  }

  lemma UnsignedBelow(v: bv32)
    ensures Unsigned(v) < 0x1_0000_0000
  {
  }

  lemma SignIsTopByte(v: bv32)
    ensures Sign(v) <==> ByteOf(v, 3) as nat >= 0x80
  {
    assert Sign(v) <==> ByteOf(v, 3) & 0x80 != 0;
    HighBit(ByteOf(v, 3));
  }

  lemma HighBit(b: bv8)
    ensures b & 0x80 != 0 <==> b as nat >= 0x80
  {
  }

  // Bit counting. `Shr(v, k)` is `v` shifted right one place k times, which
  // is what the counting loops do to their argument; `Ones(v, n)` counts the
  // set bits among the n lowest.

  /** One place right. */
  function Half(v: bv16): bv16 {
    v >> 1
  }

  function Shr(v: bv16, k: nat): bv16 {
    if k == 0 then v else Half(Shr(v, k - 1))
  }

  /** Bit k of v, as the counting loops see it. */
  predicate Listed(v: bv16, k: nat) {
    Shr(v, k) & 1 == 1
  }

  function Ones(v: bv16, n: nat): nat {
    if n == 0 then 0 else Ones(v, n - 1) + (if Listed(v, n - 1) then 1 else 0)
  }

  /** At most n of the n lowest bits are set. */
  lemma {:induction false} OnesBound(v: bv16, n: nat)
    ensures Ones(v, n) <= n
  {
    if n > 0 {
      OnesBound(v, n - 1);
    }
  }

  /** The count never falls as more bits are looked at. */
  lemma {:induction false} OnesMonotone(v: bv16, m: nat, n: nat)
    requires m <= n
    ensures Ones(v, m) <= Ones(v, n)
  {
    if m < n {
      OnesMonotone(v, m, n - 1);
    }
  }

  /** Sixteen shifts empty a halfword, eight a byte. */
  lemma ShrEmpties(v: bv16)
    ensures Shr(v, 16) == 0
    ensures v <= 0xff ==> Shr(v, 8) == 0
  {
    ShrShr(v, 4, 4);
    ShrShr(v, 8, 4);
    ShrShr(v, 12, 4);
    ShrFour(v);
    ShrFour(Shr(v, 4));
    ShrFour(Shr(v, 8));
    ShrFour(Shr(v, 12));
    Shr16Literal(v);
  }

  lemma Shr16Literal(v: bv16)
    ensures (((v >> 4) >> 4) >> 4) >> 4 == 0
    ensures v <= 0xff ==> (v >> 4) >> 4 == 0
  {
  }

  lemma ShrFour(v: bv16)
    ensures Shr(v, 4) == v >> 4
  {
    ShrOne(v, 0);
    ShrOne(v, 1);
    ShrOne(v, 2);
    ShrOne(v, 3);
    ShiftsCompose(v);
  }

  lemma ShrOne(v: bv16, k: nat)
    ensures Shr(v, k + 1) == Shr(v, k) >> 1
  {
  }

  lemma ShiftsCompose(v: bv16)
    ensures (((v >> 1) >> 1) >> 1) >> 1 == v >> 4
  {
  }

  /** Shifting k places and then j more is shifting k + j places. */
  lemma {:induction false} ShrShr(v: bv16, k: nat, j: nat)
    ensures Shr(Shr(v, k), j) == Shr(v, k + j)
  {
    if j > 0 {
      ShrShr(v, k, j - 1);
    }
  }

  /** Once the shifted value is zero no further bit is set. */
  lemma {:induction false} OnesRest(v: bv16, k: nat, n: nat)
    requires k <= n && Shr(v, k) == 0
    ensures Ones(v, n) == Ones(v, k)
  {
    if k < n {
      OnesRest(v, k, n - 1);
      ShrStaysZero(v, k, n - 1);
    }
  }

  lemma {:induction false} ShrStaysZero(v: bv16, k: nat, n: nat)
    requires k <= n && Shr(v, k) == 0
    ensures Shr(v, n) == 0
  {
    if k < n {
      ShrStaysZero(v, k, n - 1);
    }
  }

  /** No bit is set exactly when the halfword is zero. */
  lemma OnesZero(v: bv16)
    ensures Ones(v, 16) == 0 <==> v == 0
  {
    if v == 0 {
      assert Shr(v, 0) == 0;
      OnesRest(v, 0, 16);
    } else if Ones(v, 16) == 0 {
      ShrEmpties(v);
      NoneListedBelow(v, 16);
      ZeroFrom(v, 0);
      assert false;
    }
  }

  lemma {:induction false} NoneListedBelow(v: bv16, n: nat)
    requires Ones(v, n) == 0
    ensures forall k :: 0 <= k < n ==> !Listed(v, k)
  {
    if n > 0 {
      OnesMonotone(v, n - 1, n);
      NoneListedBelow(v, n - 1);
    }
  }

  lemma {:induction false} ZeroFrom(v: bv16, k: nat)
    requires k <= 16 && Shr(v, 16) == 0
    requires forall j :: k <= j < 16 ==> !Listed(v, j)
    ensures Shr(v, k) == 0
    decreases 16 - k
  {
    if k < 16 {
      ZeroFrom(v, k + 1);
      ShrOne(v, k);
      assert !Listed(v, k);
      LastBit(Shr(v, k));
    }
  }

  lemma LastBit(x: bv16)
    requires x >> 1 == 0 && x & 1 != 1
    ensures x == 0
  {
  }

  /** `hammingWeight16`: shifts the value out one bit at a time, counting the ones. */
  method HammingWeight16(value: bv16) returns (result: nat)
    ensures result == Ones(value, 16)
    ensures result <= 16
  {
    var p := value;
    result := 0;
    ghost var i: nat := 0;
    ShrEmpties(value);
    while p != 0
      invariant i <= 16 && p == Shr(value, i) && result == Ones(value, i)
      decreases 16 - i
    {
      result := result + (if p & 1 == 1 then 1 else 0);
      p := p >> 1;
      i := i + 1;
    }
    OnesRest(value, i, 16);
    OnesBound(value, 16);
  }

  /** `hammingWeight8`: the same loop over a byte; the count is that of the zero-extended halfword. */
  method HammingWeight8(value: bv8) returns (result: nat)
    ensures result == Ones(value as bv16, 8)
    ensures result <= 8
  {
    var p := value;
    result := 0;
    ghost var i: nat := 0;
    ShrEmpties(value as bv16);
    while p != 0
      invariant i <= 8 && p as bv16 == Shr(value as bv16, i) && result == Ones(value as bv16, i)
      decreases 8 - i
    {
      ByteStep(p);
      result := result + (if p & 1 == 1 then 1 else 0);
      p := p >> 1;
      i := i + 1;
    }
    OnesRest(value as bv16, i, 8);
    OnesBound(value as bv16, 8);
  }

  lemma ByteStep(p: bv8)
    ensures (p >> 1) as bv16 == (p as bv16) >> 1
    ensures p & 1 == 1 <==> (p as bv16) & 1 == 1
  {
  }

  /** A byte has no set bit above bit 7, so counting eight or sixteen bits agrees. */
  lemma ByteOnes(v: bv8)
    ensures Ones(v as bv16, 16) == Ones(v as bv16, 8)
  {
    ShrEmpties(v as bv16);
    OnesRest(v as bv16, 8, 16);
  }

  // Carry and overflow helpers, against the ARM reference conditions.

  /** `getCarrySub`: the carry of `left - right` is NOT BorrowFrom. */
  function GetCarrySub(left: bv32, right: bv32): (c: bool)
    ensures c <==> ArmRef.NotBorrowFrom(left, right)
  {
    left >= right
  }

  /** Carry set and result nonzero means unsigned higher (condition HI); carry clear or result zero means lower or same (LS). */
  lemma CarrySubOrders(left: bv32, right: bv32)
    ensures GetCarrySub(left, right) && left - right != 0 <==> left >= right && left != right
  {
    ZeroDifference(left, right);
  }

  /** The difference is zero exactly for equal operands (condition EQ after a compare). */
  lemma ZeroDifference(a: bv32, b: bv32)
    ensures a - b == 0 <==> a == b
  {
  }

  /** `getOverflowSub`: bit 31 of `(l ^ r) & (l ^ result)`. */
  function GetOverflowSub(left: bv32, right: bv32, result: bv32): bool {
    ((left ^ right) & (left ^ result)) & 0x8000_0000 != 0
  }

  /** For any result word: the operands differ in sign and the result's sign differs from the left operand's. */
  lemma OverflowSubIsReference(left: bv32, right: bv32, result: bv32)
    ensures GetOverflowSub(left, right, result) <==> ArmRef.OverflowFromSub(left, right, result)
  {
  }

  /** `getCarrySbc`: `left >= right && left - right >= !carry`. */
  function GetCarrySbc(left: bv32, right: bv32, carry: bool): bool {
    left >= right && left - right >= B2W(!carry)
  }

  /** The carry of `left - right - NOT carry` is NOT BorrowFrom of the three-operand subtraction. */
  lemma CarrySbcIsReference(left: bv32, right: bv32, carry: bool)
    ensures GetCarrySbc(left, right, carry) <==> ArmRef.NotBorrowFromWithCarry(left, right, carry)
  {
    ZeroDifference(left, right);
    AtLeastOne(left - right);
  }

  lemma AtLeastOne(x: bv32)
    ensures x >= 1 <==> x != 0
  {
  }

  /** `getOverflowAdd`: the operands' bit 31 agree and the result's differs from the left's. */
  function GetOverflowAdd(left: bv32, right: bv32, result: bv32): bool {
    (left ^ right) & 0x8000_0000 == 0 && (left ^ result) & 0x8000_0000 != 0
  }

  lemma OverflowAddIsReference(left: bv32, right: bv32, result: bv32)
    ensures GetOverflowAdd(left, right, result) <==> ArmRef.OverflowFromAdd(left, right, result)
  {
  }
}
