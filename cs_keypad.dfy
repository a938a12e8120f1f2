// src/GBA/Keypad.cs: the keypad of the C# core. KEYINPUT (0x04000130) is
// active low: a pressed key reads 0. KEYCNT (0x04000132) selects keys in
// bits 9:0, enables the keypad interrupt with bit 14 and chooses with bit
// 15 between "all selected keys" (1) and "any selected key" (0).
//
// Both registers live in the IO bank: `UpdatePressedKeys` returns the value
// it stores into KEYINPUT, and `Cycle` takes the two register values and
// returns the `SetInterruptFlag` arguments it passes.

module CsKeypad {
  import opened CsBitUtils

  /** The `Keys` enumeration: A, B, Select, Start, Right, Left, Up, Down, R, L. */
  const KEY_COUNT: bv16 := 10

  /** The keypad interrupt, bit 12 of IF. */
  const KEYPAD_IRQ: bv16 := 0x1000

  /** `(ushort)~(1 << i)`: C# masks the shift count to 5 bits, and the cast keeps the low 16 bits. */
  function KeyMask(i: nat): bv16 {
    !Mask16((i % 0x1_0000) as bv16)
  }

  /** The value `UpdatePressedKeys` computes after its first `i` iterations. */
  function KeyInputUpTo(keys: seq<bool>, i: nat): bv16
    requires i <= |keys|
  {
    if i == 0 then 0xffff else Press(KeyInputUpTo(keys, i - 1), keys[i - 1], i - 1)
  }

  /** One iteration of `UpdatePressedKeys`: a pressed key `i` clears its bit. */
  function Press(value: bv16, pressed: bool, i: nat): bv16 {
    if pressed then value & KeyMask(i) else value
  }

  /** The value `UpdatePressedKeys` stores into KEYINPUT. */
  function KeyInputSpec(keys: seq<bool>): bv16 {
    KeyInputUpTo(keys, |keys|)
  }

  /** `UpdatePressedKeys(pressedKeys)`: the value it stores into KEYINPUT. */
  method UpdatePressedKeys(pressedKeys: array<bool>) returns (value: bv16)
    ensures value == KeyInputSpec(pressedKeys[..])
  {
    value := 0xffff;
    for i := 0 to pressedKeys.Length
      invariant value == KeyInputUpTo(pressedKeys[..], i)
    {
      value := Press(value, pressedKeys[i], i);
    }
  }

  /** The bit of KEYINPUT and KEYCNT for key `b`. */
  function KeyBit(b: bv16): bv16
    requires b < 16
  {
    1 << b
  }

  /** For up to 16 keys, KEYINPUT reads 0 exactly at the pressed keys, and 1 at every other bit. */
  lemma PressedKeysClearBits(keys: seq<bool>, b: nat)
    requires |keys| <= 16 && b < 16
    ensures KeyInputSpec(keys) & KeyBit(b as bv16) == 0 <==> b < |keys| && keys[b]
  {
    var bb := b as bv16;
    PrefixClearsBits(keys, |keys|, b, bb);
    KeyBitShift(b, bb);
  }

  lemma KeyBitShift(b: nat, bb: bv16)
    requires b < 16 && bb == b as bv16
    ensures KeyBit(b as bv16) == 1 << bb
  {
  }

  /** The same after the first `i` iterations, with the bit position `bb` as a 16-bit count. */
  lemma {:induction false} PrefixClearsBits(keys: seq<bool>, i: nat, b: nat, bb: bv16)
    requires i <= |keys| <= 16 && b < 16 && bb == b as bv16
    ensures KeyInputUpTo(keys, i) & (1 << bb) == 0 <==> b < i && keys[b]
  {
    if i > 0 {
      PrefixClearsBits(keys, i - 1, b, bb);
      PressStep(KeyInputUpTo(keys, i - 1), KeyInputUpTo(keys, i), i - 1, b, keys[i - 1], (i - 1) as bv16, bb);
    } else {
      Released(bb);
    }
  }

  /** Below 16, `KeyMask(i)` clears exactly the bit `i`. */
  lemma KeyMaskShift(i: nat, ib: bv16)
    requires i < 16 && ib == i as bv16
    ensures KeyMask(i) == !(1 << ib)
  {
    assert i % 0x1_0000 == i;
    Mask16Low(ib);
  }

  /** With no key pressed every bit of KEYINPUT reads 1. */
  lemma Released(bb: bv16)
    requires bb < 16
    ensures (0xffff as bv16) & (1 << bb) != 0
  {
  }

  /** One step of `UpdatePressedKeys`: pressing key `n` clears bit `n` and no other. */
  lemma PressStep(x: bv16, x': bv16, n: nat, b: nat, pressed: bool, nb: bv16, bb: bv16)
    requires n < 16 && b < 16 && nb == n as bv16 && bb == b as bv16
    requires x' == Press(x, pressed, n)
    ensures x' & (1 << bb) == 0 <==> x & (1 << bb) == 0 || (pressed && b == n)
  {
    KeyMaskShift(n, nb);
    SmallCast(n, b);
    ShiftedStep(x, x', nb, bb, pressed);
  }

  lemma SmallCast(n: nat, b: nat)
    requires n < 16 && b < 16
    ensures n as bv16 == b as bv16 <==> n == b
  {
  }

  lemma ShiftedStep(x: bv16, x': bv16, n: bv16, b: bv16, pressed: bool)
    requires n < 16 && b < 16
    requires x' == if pressed then x & !(1 << n) else x
    ensures x' & (1 << b) == 0 <==> x & (1 << b) == 0 || (pressed && b == n)
  {
  }

  // -------------------------------------------------------------------
  // Keypad.Cycle

  /** The selected keys that are pressed, as bits 9:0. */
  function PressedSelected(keyinput: bv16, keycnt: bv16): bv16 {
    keycnt & !keyinput & 0x03ff
  }

  /** `Cycle`: with bit 14 of KEYCNT set, bit 15 asks for all selected keys, else for any. */
  function CycleSpec(keyinput: bv16, keycnt: bv16): seq<bv16> {
    if BitTest16(keycnt, 14) then
      if BitTest16(keycnt, 15) then
        if PressedSelected(keyinput, keycnt) == keycnt & 0x03ff then [KEYPAD_IRQ] else []
      else if PressedSelected(keyinput, keycnt) != 0 then [KEYPAD_IRQ] else []
    else []
  }

  method Cycle(keyinput: bv16, keycnt: bv16) returns (raised: seq<bv16>)
    ensures raised == CycleSpec(keyinput, keycnt)
  {
    raised := [];
    if BitTest16(keycnt, 14) {
      if BitTest16(keycnt, 15) {
        if (keycnt & (!keyinput) & 0x03ff) == (keycnt & 0x03ff) {
          raised := [1 << 12];
        }
      } else {
        if (keycnt & (!keyinput) & 0x03ff) != 0 {
          raised := [1 << 12];
        }
      }
    }
  }

  /** Key `b` is selected in KEYCNT. */
  predicate Selected(keycnt: bv16, b: bv16)
    requires b < KEY_COUNT
  {
    keycnt & KeyBit(b) != 0
  }

  /** Key `b` is pressed: its KEYINPUT bit is 0. */
  predicate Pressed(keyinput: bv16, b: bv16)
    requires b < KEY_COUNT
  {
    keyinput & KeyBit(b) == 0
  }

  /** With KEYCNT bit 14 clear the keypad raises nothing. */
  lemma CycleDisabled(keyinput: bv16, keycnt: bv16)
    requires keycnt & 0x4000 == 0
    ensures CycleSpec(keyinput, keycnt) == []
  {
    Mask16Low(14);
  }

  /** AND mode: the interrupt is raised exactly when every selected key is pressed. */
  lemma CycleAllSelected(keyinput: bv16, keycnt: bv16)
    requires keycnt & 0xc000 == 0xc000
    ensures CycleSpec(keyinput, keycnt) == [KEYPAD_IRQ] <==>
            forall b: bv16 :: b < KEY_COUNT ==> Selected(keycnt, b) ==> Pressed(keyinput, b)
    ensures CycleSpec(keyinput, keycnt) == [] || CycleSpec(keyinput, keycnt) == [KEYPAD_IRQ]
  {
    AndMode(keyinput, keycnt);
    EverySelectedPressed(keyinput, keycnt);
  }

  lemma AndMode(keyinput: bv16, keycnt: bv16)
    requires keycnt & 0xc000 == 0xc000
    ensures CycleSpec(keyinput, keycnt) == [KEYPAD_IRQ] <==> keycnt & keyinput & 0x03ff == 0
    ensures CycleSpec(keyinput, keycnt) == [] || CycleSpec(keyinput, keycnt) == [KEYPAD_IRQ]
  {
    assert BitTest16(keycnt, 14) && BitTest16(keycnt, 15) by {
      Mask16Low(14);
      Mask16Low(15);
    }
    assert CycleSpec(keyinput, keycnt) == if PressedSelected(keyinput, keycnt) == keycnt & 0x03ff then [KEYPAD_IRQ] else [];
    AllMissing(keyinput, keycnt);
  }

  lemma EverySelectedPressed(keyinput: bv16, keycnt: bv16)
    ensures keycnt & keyinput & 0x03ff == 0 <==>
            forall b: bv16 :: b < KEY_COUNT ==> Selected(keycnt, b) ==> Pressed(keyinput, b)
  {
    if keycnt & keyinput & 0x03ff == 0 {
      AllSelectedPressed(keyinput, keycnt);
    } else {
      SomeSelectedUnpressed(keyinput, keycnt);
    }
  }

  lemma SomeSelectedUnpressed(keyinput: bv16, keycnt: bv16)
    requires keycnt & keyinput & 0x03ff != 0
    ensures exists b: bv16 :: b < KEY_COUNT && Selected(keycnt, b) && !Pressed(keyinput, b)
  {
    var b := SomeKeyBit(keycnt & keyinput);
    BitOfAnd(keycnt, keyinput, b);
    assert Selected(keycnt, b) && !Pressed(keyinput, b);
  }

  lemma AllSelectedPressed(keyinput: bv16, keycnt: bv16)
    requires keycnt & keyinput & 0x03ff == 0
    ensures forall b: bv16 :: b < KEY_COUNT ==> Selected(keycnt, b) ==> Pressed(keyinput, b)
  {
    forall b: bv16 | b < KEY_COUNT
      ensures Selected(keycnt, b) ==> Pressed(keyinput, b)
    {
      OutsideTen(keycnt & keyinput, b);
      BitOfAnd(keycnt, keyinput, b);
    }
  }

  /** OR mode: the interrupt is raised exactly when some selected key is pressed. */
  lemma CycleAnySelected(keyinput: bv16, keycnt: bv16)
    requires keycnt & 0xc000 == 0x4000
    ensures CycleSpec(keyinput, keycnt) == [KEYPAD_IRQ] <==>
            exists b: bv16 :: b < KEY_COUNT && Selected(keycnt, b) && Pressed(keyinput, b)
    ensures CycleSpec(keyinput, keycnt) == [] || CycleSpec(keyinput, keycnt) == [KEYPAD_IRQ]
  {
    OrMode(keyinput, keycnt);
    SomeSelectedPressed(keyinput, keycnt);
  }

  lemma OrMode(keyinput: bv16, keycnt: bv16)
    requires keycnt & 0xc000 == 0x4000
    ensures CycleSpec(keyinput, keycnt) == [KEYPAD_IRQ] <==> PressedSelected(keyinput, keycnt) != 0
    ensures CycleSpec(keyinput, keycnt) == [] || CycleSpec(keyinput, keycnt) == [KEYPAD_IRQ]
  {
    OrModeBits(keycnt);
    assert CycleSpec(keyinput, keycnt) == if PressedSelected(keyinput, keycnt) != 0 then [KEYPAD_IRQ] else [];
  }

  lemma OrModeBits(keycnt: bv16)
    requires keycnt & 0xc000 == 0x4000
    ensures BitTest16(keycnt, 14) && !BitTest16(keycnt, 15)
  {
    Mask16Low(14);
    Mask16Low(15);
  }

  lemma SomeSelectedPressed(keyinput: bv16, keycnt: bv16)
    ensures PressedSelected(keyinput, keycnt) != 0 <==>
            exists b: bv16 :: b < KEY_COUNT && Selected(keycnt, b) && Pressed(keyinput, b)
  {
    var x := keycnt & !keyinput;
    if x & 0x03ff != 0 {
      var b := SomeKeyBit(x);
      BitOfAnd(keycnt, !keyinput, b);
      BitOfNot(keyinput, b);
      assert Selected(keycnt, b) && Pressed(keyinput, b);
    } else {
      forall b: bv16 | b < KEY_COUNT
        ensures !(Selected(keycnt, b) && Pressed(keyinput, b))
      {
        OutsideTen(x, b);
        BitOfAnd(keycnt, !keyinput, b);
        BitOfNot(keyinput, b);
      }
    }
  }

  /** With bits 9:0 of `x` clear, no key bit of `x` is set. */
  lemma OutsideTen(x: bv16, b: bv16)
    requires x & 0x03ff == 0 && b < KEY_COUNT
    ensures x & KeyBit(b) == 0
  {
  }

  lemma AllMissing(keyinput: bv16, keycnt: bv16)
    ensures PressedSelected(keyinput, keycnt) == keycnt & 0x03ff <==> keycnt & keyinput & 0x03ff == 0
  {
  }

  /** A bit of `x & y` is clear exactly when it is clear in `x` or in `y`. */
  lemma BitOfAnd(x: bv16, y: bv16, b: bv16)
    requires b < 16
    ensures (x & y) & KeyBit(b) == 0 <==> x & KeyBit(b) == 0 || y & KeyBit(b) == 0
  {
  }

  /** A bit of `!y` is clear exactly when it is set in `y`. */
  lemma BitOfNot(y: bv16, b: bv16)
    requires b < 16
    ensures (!y) & KeyBit(b) == 0 <==> y & KeyBit(b) != 0
  {
  }

  /** The ten key bits are bits 0 .. 9. */
  lemma KeyBits()
    ensures KeyBit(0) == 0x1 && KeyBit(1) == 0x2 && KeyBit(2) == 0x4 && KeyBit(3) == 0x8 && KeyBit(4) == 0x10
    ensures KeyBit(5) == 0x20 && KeyBit(6) == 0x40 && KeyBit(7) == 0x80 && KeyBit(8) == 0x100 && KeyBit(9) == 0x200
  {
  }

  /** A set key bit of `x`. */
  lemma SomeKeyBit(x: bv16) returns (b: bv16)
    requires x & 0x03ff != 0
    ensures b < KEY_COUNT && x & KeyBit(b) != 0
  {
    KeyBits();
    if x & 0x1 != 0 { b := 0; }
    else if x & 0x2 != 0 { b := 1; }
    else if x & 0x4 != 0 { b := 2; }
    else if x & 0x8 != 0 { b := 3; }
    else if x & 0x10 != 0 { b := 4; }
    else if x & 0x20 != 0 { b := 5; }
    else if x & 0x40 != 0 { b := 6; }
    else if x & 0x80 != 0 { b := 7; }
    else if x & 0x100 != 0 { b := 8; }
    else { b := 9; }
  }
}
