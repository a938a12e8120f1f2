// src/core/cpu/decoder.c: the instruction classifier of the C core. An ARM
// instruction is looked up by the 12-bit index made of its bits 27:20 and
// 7:4, a Thumb instruction by its bits 15:6; `cpuInitArmDecodeTable` and
// `cpuInitThumbDecodeTable` fill the two tables by testing each index
// against a list of bit patterns, first match winning.
//
// The handler functions themselves are named by the constructors below.
// decoder.c's `cpuDecode` is the same pipeline step as cpu.c's (CCpu.Cpu.Decode);
// the index computation they share is ArmDecodeIndex / ThumbDecodeIndex.
//
// Each classifier is compared with a reference written from the instruction
// format tables of the ARM7TDMI (the ARM encodings of the ARMv4T
// architecture and the nineteen Thumb formats): ArmEncoding and
// ThumbEncoding. The ARM classifier agrees with its reference on every
// index. The Thumb classifier as written does not; ThumbClass is the
// corrected one.

module CDecoder {

  /** The ARM handlers of the table; `ArmNull` is the zero pointer of a table not yet filled. */
  datatype ArmHandler =
    | ArmNull | ArmUnd | ArmBx | ArmB | ArmBl
    | ArmDataProcessing(op: bv16)
    | ArmMrs | ArmMsr | ArmMul | ArmMull
    | ArmSingleDataTransfer | ArmHalfwordSignedDataTransfer | ArmLdmStm | ArmSwp | ArmSwi

  /** The Thumb handlers, one per instruction format. */
  datatype ThumbHandler =
    | ThumbNull | ThumbUnd
    | MoveShiftedRegister | AddSubtract | MoveCompareAddSubtractImmediate | AluOperations
    | HighRegisterOperations | PcRelativeLoad | LoadStoreRegisterOffset
    | LoadStoreSignExtendedByteHalfword | LoadStoreImmediateOffset | LoadStoreHalfword
    | SpRelativeLoadStore | LoadAddress | AddSpOffset | PushPop | MultipleLoadStore
    | ConditionalBranch | ThumbSwi | UnconditionalBranch | LongBranchLink

  /** The ARM index: instruction bits 27:20 as index bits 11:4 and bits 7:4 as index bits 3:0. */
  function ArmDecodeIndex(op: bv32): (i: bv16)
    ensures i < 0x1000
    ensures (i >> 4) as bv32 == (op >> 20) & 0xff
    ensures (i & 0xf) as bv32 == (op >> 4) & 0xf
  {
    (((op >> 16) & 0x0000_0ff0) | ((op >> 4) & 0x0000_000f)) as bv16
  }

  /** The Thumb index: bits 15:6 of the halfword. */
  function ThumbDecodeIndex(op: bv16): (i: bv16)
    ensures i < 0x400
    ensures i << 6 == op & 0xffc0
  {
    op >> 6
  }

  // -------------------------------------------------------------------
  // ARM

  /** `cpuInitArmDecodeTable`'s classification of index `i`, as written. */
  function ArmClass(i: bv16): ArmHandler {
    var isBranchExchange := i == 0x121;
    var isBranch := i & 0xe00 == 0xa00;
    var isBranchLink := i & 0x100 == 0x100;
    var isDataProcImmediate := i & 0xe00 == 0x200;
    var isDataProcRegister := i & 0xe00 == 0x000;
    var isDataProcInvalidShift := i & 0x009 == 0x009;
    var isDataProcInvalidTest := i & 0x190 == 0x100;
    var isMrs := i & 0xfbf == 0x100;
    var isMsrImmediate := i & 0xfb0 == 0x320;
    var isMsrRegister := i & 0xfbf == 0x120;
    var isMul := i & 0xfcf == 0x009;
    var isMull := i & 0xf8f == 0x089;
    var isSingleDataTransfer := i & 0xc00 == 0x400;
    var isInvalidSingleDataTransfer := i & 0xe01 == 0x601;
    var isHalfwordSignedDataTransfer := i & 0xe09 == 0x009;
    var isHalfwordSignedDataTransferSwap := i & 0xe0f == 0x009;
    var isBlockDataTransfer := i & 0xe00 == 0x800;
    var isSwap := i & 0xfbf == 0x109;
    var isSwi := i & 0xf00 == 0xf00;
    if isBranchExchange then ArmBx
    else if isBranch then (if !isBranchLink then ArmB else ArmBl)
    else if !isDataProcInvalidTest && (isDataProcImmediate || (isDataProcRegister && !isDataProcInvalidShift)) then
      ArmDataProcessing((i >> 5) & 0xf)
    else if isMsrImmediate || isMsrRegister || isMrs then (if isMrs then ArmMrs else ArmMsr)
    else if isMul then ArmMul
    else if isMull then ArmMull
    else if isSingleDataTransfer && !isInvalidSingleDataTransfer then ArmSingleDataTransfer
    else if isHalfwordSignedDataTransfer && !isHalfwordSignedDataTransferSwap then ArmHalfwordSignedDataTransfer
    else if isBlockDataTransfer then ArmLdmStm
    else if isSwap then ArmSwp
    else if isSwi then ArmSwi
    else ArmUnd
  }

  /**
   * The ARMv4T encodings, by the fields of the index: bits 27:25 pick the
   * row of the format table; in the data-processing rows an opcode 10xx
   * without S is the miscellaneous space (MRS, MSR, BX); bits 7 and 4 both
   * set in row 000 is the multiply and extra load/store space. Row 110 and
   * the coprocessor half of row 111 are undefined on a CPU without
   * coprocessors.
   */
  function ArmEncoding(i: bv16): ArmHandler
    requires i < 0x1000
  {
    var row := i >> 9;               // bits 27:25
    var opcode := (i >> 5) & 0xf;    // bits 24:21
    var s := i & 0x10 != 0;          // bit 20
    var low := i & 0xf;              // bits 7:4
    var misc := opcode & 0xc == 0x8 && !s;
    if row == 0 then
      if low & 0x9 == 0x9 then
        if low == 0x9 then
          if i >> 6 == 0 then ArmMul                          // 000000 A S
          else if i >> 7 == 1 then ArmMull                    // 00001 U A S
          else if i >> 7 == 2 && i & 0x30 == 0 then ArmSwp    // 00010 B 00
          else ArmUnd
        else ArmHalfwordSignedDataTransfer                    // SH != 00
      else if misc then
        if i == 0x121 then ArmBx
        else if low == 0 then (if opcode & 1 == 0 then ArmMrs else ArmMsr)
        else ArmUnd
      else ArmDataProcessing(opcode)
    else if row == 1 then
      if misc then (if opcode & 1 == 1 then ArmMsr else ArmUnd)
      else ArmDataProcessing(opcode)
    else if row == 2 then ArmSingleDataTransfer
    else if row == 3 then (if low & 1 == 1 then ArmUnd else ArmSingleDataTransfer)
    else if row == 4 then ArmLdmStm
    else if row == 5 then (if i & 0x100 == 0 then ArmB else ArmBl)
    else if row == 7 && i & 0x100 != 0 then ArmSwi
    else ArmUnd
  }

  /** Every index is classified as the ARM encodings prescribe. */
  lemma ArmClassIsEncoding(i: bv16)
    requires i < 0x1000
    ensures ArmClass(i) == ArmEncoding(i)
  {
  }

  /** Index 0x121 is BX; rows 101 are B, or BL when bit 24 (index bit 8) is set. */
  lemma ArmBranches(i: bv16)
    ensures ArmClass(0x121) == ArmBx
    ensures i & 0xe00 == 0xa00 ==> ArmClass(i) == (if i & 0x100 == 0 then ArmB else ArmBl)
  {
  }

  /**
   * Data processing: the immediate form, or the register form without both
   * bits 7 and 4 set, and never a test opcode without S. The opcode is index
   * bits 8:5.
   */
  lemma ArmDataProcessingExactly(i: bv16)
    requires i < 0x1000
    ensures ArmClass(i).ArmDataProcessing? <==>
              i & 0x190 != 0x100 && (i & 0xe00 == 0x200 || (i & 0xe00 == 0 && i & 0x9 != 0x9))
    ensures ArmClass(i).ArmDataProcessing? ==> ArmClass(i).op == (i >> 5) & 0xf
  {
  }

  /** The table is total: every index gets a handler, the undefined one when no pattern matches. */
  lemma ArmClassTotal(i: bv16)
    ensures ArmClass(i) != ArmNull
  {
  }

  // -------------------------------------------------------------------
  // Thumb

  /** The format-5 test as written: H1 = H2 = 0 and BX with H1 = 1 are rejected. */
  function HighRegisterAsWritten(i: bv16): bool {
    var isHighRegOps := i & 0x3f0 == 0x110;
    var isInvalidHighRegOps := i & 0x3f3 == 0x110;
    var isInvalidBx := i & 0x3fe == 0x11e;
    isHighRegOps && !isInvalidHighRegOps && !isInvalidBx
  }

  /** The format-5 test as intended: H1 = H2 = 0 is rejected only for ADD, CMP and MOV, since BX Rs with Rs in r0-r7 is valid. */
  function HighRegister(i: bv16): bool {
    var isHighRegOps := i & 0x3f0 == 0x110;
    var isInvalidHighRegOps := i & 0x3f3 == 0x110 && i & 0x3fc != 0x11c;
    var isInvalidBx := i & 0x3fe == 0x11e;
    isHighRegOps && !isInvalidHighRegOps && !isInvalidBx
  }

  /** `cpuInitThumbDecodeTable`'s classification of index `i`, as written. */
  function ThumbClassAsWritten(i: bv16): ThumbHandler {
    var isMoveShiftedRegister := i & 0x280 == 0x000;
    var isAddSubtract := i & 0x2e0 == 0x060;
    var isMoveCompareAddSubtractImmediate := i & 0x280 == 0x080;
    var isLoadStoreHalfword := i & 0x200 == 0x200;
    var isSpRelativeLoadStore := i & 0x2c0 == 0x240;
    ThumbChain(i, isMoveShiftedRegister, isAddSubtract, isMoveCompareAddSubtractImmediate,
               HighRegisterAsWritten(i), isLoadStoreHalfword, isSpRelativeLoadStore)
  }

  /** The classification with the five masks that test bits 15:13 or 15:12 given all their bits, and BX Rs allowed. */
  function ThumbClass(i: bv16): ThumbHandler {
    var isMoveShiftedRegister := i & 0x380 == 0x000;
    var isAddSubtract := i & 0x3e0 == 0x060;
    var isMoveCompareAddSubtractImmediate := i & 0x380 == 0x080;
    var isLoadStoreHalfword := i & 0x3c0 == 0x200;
    var isSpRelativeLoadStore := i & 0x3c0 == 0x240;
    ThumbChain(i, isMoveShiftedRegister, isAddSubtract, isMoveCompareAddSubtractImmediate,
               HighRegister(i), isLoadStoreHalfword, isSpRelativeLoadStore)
  }

  /** The first-match chain of `cpuInitThumbDecodeTable`, given the tests that the two versions disagree on. */
  function ThumbChain(i: bv16, isMoveShiftedRegister: bool, isAddSubtract: bool,
                      isMoveCompareAddSubtractImmediate: bool, isHighRegister: bool,
                      isLoadStoreHalfword: bool, isSpRelativeLoadStore: bool): ThumbHandler
  {
    var isAluOperations := i & 0x3f0 == 0x100;
    var isPcRelativeLoad := i & 0x3e0 == 0x120;
    var isLoadStoreRegisterOffset := i & 0x3c8 == 0x140;
    var isLoadStoreSignExtendedByteHalfword := i & 0x3c8 == 0x148;
    var isLoadStoreImmediateOffset := i & 0x380 == 0x180;
    var isLoadAddress := i & 0x3c0 == 0x280;
    var isAddSpOffset := i & 0x3fc == 0x2c0;
    var isPushPop := i & 0x3d8 == 0x2d0;
    var isMultipleLoadStore := i & 0x3c0 == 0x300;
    var isConditionalBranch := i & 0x3c0 == 0x340;
    var isSoftwareInterrupt := i & 0x3fc == 0x37c;
    var isUnconditionalBranch := i & 0x3e0 == 0x380;
    var isLongBranchLink := i & 0x3c0 == 0x3c0;
    if isMoveShiftedRegister && !isAddSubtract then MoveShiftedRegister
    else if isAddSubtract then AddSubtract
    else if isMoveCompareAddSubtractImmediate then MoveCompareAddSubtractImmediate
    else if isAluOperations then AluOperations
    else if isHighRegister then HighRegisterOperations
    else if isPcRelativeLoad then PcRelativeLoad
    else if isLoadStoreRegisterOffset then LoadStoreRegisterOffset
    else if isLoadStoreSignExtendedByteHalfword then LoadStoreSignExtendedByteHalfword
    else if isLoadStoreImmediateOffset then LoadStoreImmediateOffset
    else if isLoadStoreHalfword then LoadStoreHalfword
    else if isSpRelativeLoadStore then SpRelativeLoadStore
    else if isLoadAddress then LoadAddress
    else if isAddSpOffset then AddSpOffset
    else if isPushPop then PushPop
    else if isMultipleLoadStore then MultipleLoadStore
    else if isConditionalBranch && !isSoftwareInterrupt then ConditionalBranch
    else if isSoftwareInterrupt then ThumbSwi
    else if isUnconditionalBranch then UnconditionalBranch
    else if isLongBranchLink then LongBranchLink
    else ThumbUnd
  }

  /**
   * The nineteen Thumb formats of the ARM7TDMI, by the leading bits of the
   * halfword (index bits 9:0 are halfword bits 15:6). Format 5 leaves
   * H1 = H2 = 0 undefined for ADD, CMP and MOV and H1 = 1 undefined for BX.
   * Condition 1110 of format 16 has no specified action and stays with
   * format 16; 11101 and the rest of 1011 are undefined.
   */
  function ThumbEncoding(i: bv16): ThumbHandler
    requires i < 0x400
  {
    if i >> 7 == 0 then (if (i >> 5) & 3 == 3 then AddSubtract else MoveShiftedRegister)   // 000
    else if i >> 7 == 1 then MoveCompareAddSubtractImmediate                               // 001
    else if i >> 4 == 0x10 then AluOperations                                              // 010000
    else if i >> 4 == 0x11 then                                                            // 010001
      var op := (i >> 2) & 3;
      var h1 := i & 2 != 0;
      var h2 := i & 1 != 0;
      if (op != 3 && !h1 && !h2) || (op == 3 && h1) then ThumbUnd else HighRegisterOperations
    else if i >> 5 == 0x9 then PcRelativeLoad                                              // 01001
    else if i >> 6 == 0x5 then                                                             // 0101
      (if i & 0x8 == 0 then LoadStoreRegisterOffset else LoadStoreSignExtendedByteHalfword)
    else if i >> 7 == 3 then LoadStoreImmediateOffset                                      // 011
    else if i >> 6 == 0x8 then LoadStoreHalfword                                           // 1000
    else if i >> 6 == 0x9 then SpRelativeLoadStore                                         // 1001
    else if i >> 6 == 0xa then LoadAddress                                                 // 1010
    else if i >> 2 == 0xb0 then AddSpOffset                                                // 10110000
    else if i >> 6 == 0xb && (i >> 3) & 3 == 2 then PushPop                                // 1011 x10
    else if i >> 6 == 0xc then MultipleLoadStore                                           // 1100
    else if i >> 2 == 0xdf then ThumbSwi                                                   // 11011111
    else if i >> 6 == 0xd then ConditionalBranch                                           // 1101
    else if i >> 5 == 0x1c then UnconditionalBranch                                        // 11100
    else if i >> 6 == 0xf then LongBranchLink                                              // 1111
    else ThumbUnd
  }

  /** The corrected classifier decodes every index as the Thumb formats prescribe. */
  lemma ThumbClassIsEncoding(i: bv16)
    requires i < 0x400
    ensures ThumbClass(i) == ThumbEncoding(i)
  {
  }

  /** SWI (bits 15:8 = 11011111) is not taken for a conditional branch. */
  lemma ThumbSwiFirst(i: bv16)
    requires i & 0x3fc == 0x37c
    ensures ThumbClass(i) == ThumbSwi
  {
  }

  /**
   * As written, bit 9 of the index decides alone between load/store
   * halfword and the three formats of rows 000 and 001: only four handlers
   * are ever installed.
   */
  lemma ThumbAsWrittenFourClasses(i: bv16)
    ensures ThumbClassAsWritten(i) ==
              if i & 0x200 != 0 then LoadStoreHalfword
              else if i & 0x80 != 0 then MoveCompareAddSubtractImmediate
              else if i & 0x60 == 0x60 then AddSubtract
              else MoveShiftedRegister
  {
  }

  /** AND r0, r0 (0x4000, index 0x100) decodes as a shift and SWI 0 (0xdf00, index 0x37c) as a halfword transfer. */
  lemma ThumbAsWrittenCounterexamples()
    ensures ThumbClassAsWritten(0x100) == MoveShiftedRegister && ThumbEncoding(0x100) == AluOperations
    ensures ThumbClassAsWritten(0x37c) == LoadStoreHalfword && ThumbEncoding(0x37c) == ThumbSwi
  {
  }

  /** BX r0 (0x4700, index 0x11c) fails the format-5 test as written. */
  lemma HighRegisterAsWrittenRejectsBx()
    ensures !HighRegisterAsWritten(0x11c) && ThumbEncoding(0x11c) == HighRegisterOperations
  {
  }

  /** The two format-5 tests disagree on index 0x11c only. */
  lemma HighRegisterCorrection(i: bv16)
    requires i < 0x400
    ensures HighRegister(i) != HighRegisterAsWritten(i) <==> i == 0x11c
  {
  }

  /** Both Thumb tables are total. */
  lemma ThumbClassTotal(i: bv16)
    ensures ThumbClassAsWritten(i) != ThumbNull && ThumbClass(i) != ThumbNull
  {
  }

  // -------------------------------------------------------------------
  // The tables

  ghost predicate ArmFilledBelow(t: seq<ArmHandler>, n: nat)
    requires n <= |t| <= 4096
  {
    forall k :: 0 <= k < n ==> t[k] == ArmClass(k as bv16)
  }

  ghost predicate ThumbFilledBelow(t: seq<ThumbHandler>, n: nat)
    requires n <= |t| <= 1024
  {
    forall k :: 0 <= k < n ==> t[k] == ThumbClassAsWritten(k as bv16)
  }

  /** `s_cpuDecodeTable` of decoder.c. */
  class DecodeTable {
    const arm: array<ArmHandler>
    const thumb: array<ThumbHandler>

    ghost predicate Valid()
      reads this
    {
      arm.Length == 4096 && thumb.Length == 1024
    }

    /** The zero-initialised static table: every entry a null pointer. */
    constructor ()
      ensures Valid() && fresh(arm) && fresh(thumb)
      ensures forall k :: 0 <= k < 4096 ==> arm[k] == ArmNull
      ensures forall k :: 0 <= k < 1024 ==> thumb[k] == ThumbNull
    {
      arm := new ArmHandler[4096](_ => ArmNull);
      thumb := new ThumbHandler[1024](_ => ThumbNull);
    }

    /** `cpuDecoderInit`: fills both tables from the classifiers. */
    method Init()
      requires Valid()
      modifies arm, thumb
      ensures forall k :: 0 <= k < 4096 ==> arm[k] == ArmClass(k as bv16)
      ensures forall k :: 0 <= k < 1024 ==> thumb[k] == ThumbClassAsWritten(k as bv16)
    {
      InitArm();
      InitThumb();
    }

    /** `cpuInitArmDecodeTable`. */
    method InitArm()
      requires Valid()
      modifies arm
      ensures ArmFilledBelow(arm[..], 4096)
    {
      for i := 0 to 4096
        invariant ArmFilledBelow(arm[..], i)
      {
        arm[i] := ArmClass(i as bv16);
      }
    }

    /** `cpuInitThumbDecodeTable`. */
    method InitThumb()
      requires Valid()
      modifies thumb
      ensures ThumbFilledBelow(thumb[..], 1024)
    {
      for i := 0 to 1024
        invariant ThumbFilledBelow(thumb[..], i)
      {
        thumb[i] := ThumbClassAsWritten(i as bv16);
      }
    }
  }
}
