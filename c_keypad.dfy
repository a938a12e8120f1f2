// src/core/keypad.c: the keypad of the C core. The front end stores the
// state of the ten buttons; KEYINPUT (0x04000130) is computed from them on
// every read, active low, and KEYCNT (0x04000132) is a plain stored
// register.

module CKeypad {
  const KEYINPUT_ADDRESS: bv32 := 0x0400_0130
  const KEYCNT_ADDRESS: bv32 := 0x0400_0132

  /** `s_keypadButtonState[10]`: A, B, Select, Start, Right, Left, Up, Down, R, L. */
  const BUTTON_COUNT: nat := 10

  /** `uint16_t l_mask = 1 << b`. */
  function KeyBit(b: bv16): bv16
    requires b < 16
  {
    1 << b
  }

  /** One iteration of the KEYINPUT loop: a pressed button clears its bit. */
  function Press(value: bv16, pressed: bool, b: bv16): bv16
    requires b < 16
  {
    if pressed then value & !KeyBit(b) else value
  }

  /** The KEYINPUT value after the loop's first `i` iterations. */
  function KeyInputUpTo(buttons: seq<bool>, i: nat): bv16
    requires i <= |buttons| <= 16
  {
    if i == 0 then 0xffff else Press(KeyInputUpTo(buttons, i - 1), buttons[i - 1], (i - 1) as bv16)
  }

  /** What `keypadIoRead16(addr)` returns for the button states `buttons`. */
  function ReadSpec(buttons: seq<bool>, keycnt: bv16, addr: bv32): bv16
    requires |buttons| == BUTTON_COUNT
  {
    if addr == KEYINPUT_ADDRESS then KeyInputUpTo(buttons, BUTTON_COUNT)
    else if addr == KEYCNT_ADDRESS then keycnt
    else 0xffff
  }

  /** KEYCNT after `keypadIoWrite16(addr, v)`: only a KEYCNT write is stored. */
  function WriteSpec(keycnt: bv16, addr: bv32, v: bv16): bv16 {
    if addr == KEYCNT_ADDRESS then v else keycnt
  }

  /** KEYINPUT reads 0 exactly at the pressed buttons, and 1 at every other of its 16 bits. */
  lemma KeyInputClearsPressed(buttons: seq<bool>, keycnt: bv16, b: nat)
    requires |buttons| == BUTTON_COUNT && b < 16
    ensures ReadSpec(buttons, keycnt, KEYINPUT_ADDRESS) & KeyBit(b as bv16) == 0 <==> b < BUTTON_COUNT && buttons[b]
  {
    PrefixClearsBits(buttons, BUTTON_COUNT, b, b as bv16);
  }

  /** With no button pressed KEYINPUT reads 0xffff. */
  lemma {:induction false} NonePressed(buttons: seq<bool>, i: nat)
    requires i <= |buttons| <= 16
    requires forall k :: 0 <= k < |buttons| ==> !buttons[k]
    ensures KeyInputUpTo(buttons, i) == 0xffff
  {
    if i > 0 {
      NonePressed(buttons, i - 1);
    }
  }

  /** The same as `KeyInputClearsPressed` after the first `i` iterations, with the bit `b` as `bb`. */
  lemma {:induction false} PrefixClearsBits(buttons: seq<bool>, i: nat, b: nat, bb: bv16)
    requires i <= |buttons| <= 16 && b < 16 && bb == b as bv16
    ensures KeyInputUpTo(buttons, i) & KeyBit(bb) == 0 <==> b < i && buttons[b]
  {
    if i > 0 {
      PrefixClearsBits(buttons, i - 1, b, bb);
      SmallCast(i - 1, b);
      PressStep(KeyInputUpTo(buttons, i - 1), KeyInputUpTo(buttons, i), (i - 1) as bv16, bb, buttons[i - 1]);
    }
  }

  lemma SmallCast(n: nat, b: nat)
    requires n < 16 && b < 16
    ensures n as bv16 == b as bv16 <==> n == b
  {
  }

  /** One iteration: pressing button `n` clears bit `n` and no other. */
  lemma PressStep(x: bv16, x': bv16, n: bv16, b: bv16, pressed: bool)
    requires n < 16 && b < 16
    requires x' == Press(x, pressed, n)
    ensures x' & KeyBit(b) == 0 <==> x & KeyBit(b) == 0 || (pressed && b == n)
  {
  }

  /** KEYCNT reads back what was written to it. */
  lemma WriteThenReadKeycnt(buttons: seq<bool>, keycnt: bv16, v: bv16)
    requires |buttons| == BUTTON_COUNT
    ensures ReadSpec(buttons, WriteSpec(keycnt, KEYCNT_ADDRESS, v), KEYCNT_ADDRESS) == v
  {
  }

  /** Writes anywhere but KEYCNT, KEYINPUT included, change nothing; other addresses read 0xffff. */
  lemma OtherAddresses(buttons: seq<bool>, keycnt: bv16, addr: bv32, v: bv16)
    requires |buttons| == BUTTON_COUNT && addr != KEYCNT_ADDRESS
    ensures WriteSpec(keycnt, addr, v) == keycnt
    ensures addr != KEYINPUT_ADDRESS ==> ReadSpec(buttons, keycnt, addr) == 0xffff
  {
  }

  /** The static state of keypad.c. */
  class Keypad {
    const buttons: array<bool>
    var keycnt: bv16

    ghost predicate Valid()
      reads this
    {
      buttons.Length == BUTTON_COUNT
    }

    /** The zero-initialised globals. */
    constructor ()
      ensures Valid() && fresh(buttons) && keycnt == 0
      ensures forall k :: 0 <= k < BUTTON_COUNT ==> !buttons[k]
    {
      buttons := new bool[BUTTON_COUNT](_ => false);
      keycnt := 0;
    }

    /** `keypadReset`: releases all ten buttons; KEYCNT is kept. */
    method Reset()
      requires Valid()
      modifies buttons
      ensures forall k :: 0 <= k < BUTTON_COUNT ==> !buttons[k]
    {
      for i := 0 to BUTTON_COUNT
        invariant forall k :: 0 <= k < i ==> !buttons[k]
      {
        buttons[i] := false;
      }
    }

    /** `coreSetInput(key, pressed)`: the array index must be a button. */
    method SetInput(key: nat, pressed: bool)
      requires Valid() && key < BUTTON_COUNT
      modifies buttons
      ensures buttons[..] == old(buttons[..])[key := pressed]
    {
      buttons[key] := pressed;
    }

    /** `keypadIoRead16(addr)`. */
    method IoRead16(addr: bv32) returns (v: bv16)
      requires Valid()
      ensures v == ReadSpec(buttons[..], keycnt, addr)
    {
      if addr == KEYINPUT_ADDRESS {
        v := 0xffff;
        for i := 0 to BUTTON_COUNT
          invariant v == KeyInputUpTo(buttons[..], i)
        {
          v := Press(v, buttons[i], i as bv16);
        }
      } else if addr == KEYCNT_ADDRESS {
        v := keycnt;
      } else {
        v := 0xffff;
      }
    }

    /** `keypadIoWrite16(addr, v)`. */
    method IoWrite16(addr: bv32, v: bv16)
      modifies this
      ensures keycnt == WriteSpec(old(keycnt), addr, v)
    {
      if addr == KEYCNT_ADDRESS {
        keycnt := v;
      }
    }
  }
}
