// src/core/irq.c: the interrupt controller of the C core. Three registers,
// IE (0x04000200), IF (0x04000202) and IME (0x04000208), behind a 16-bit
// I/O read/write pair; irqRaise sets request bits and irqGetSignal tells
// the CPU whether an enabled request is pending.

module CIrq {
  const IE_ADDRESS: bv32 := 0x0400_0200
  const IF_ADDRESS: bv32 := 0x0400_0202
  const IME_ADDRESS: bv32 := 0x0400_0208

  /** The request bit of each source (`enum te_irqMask`). */
  const VBLANK: bv16 := 1
  const HBLANK: bv16 := 2
  const VCOUNT: bv16 := 4
  const TIMER0: bv16 := 8
  const DMA0: bv16 := 0x100
  const KEYPAD: bv16 := 0x1000

  datatype IrqState = IrqState(ie: bv16, iflag: bv16, ime: bool)

  /** IF after `irqRaise(mask)`. */
  function Raise(flags: bv16, mask: bv16): bv16 { flags | mask }

  /** IF after a write of `v`: every written one acknowledges a request. */
  function Acknowledge(flags: bv16, v: bv16): bv16 { flags & !v }

  /** What `irqIoRead16(addr)` returns. */
  function ReadSpec(s: IrqState, addr: bv32): bv16 {
    if addr == IE_ADDRESS then s.ie
    else if addr == IF_ADDRESS then s.iflag
    else if addr == IME_ADDRESS then (if s.ime then 1 else 0)
    else 0xffff
  }

  /** The registers after `irqIoWrite16(addr, v)`. */
  function WriteSpec(s: IrqState, addr: bv32, v: bv16): IrqState {
    if addr == IE_ADDRESS then s.(ie := v)
    else if addr == IF_ADDRESS then s.(iflag := Acknowledge(s.iflag, v))
    else if addr == IME_ADDRESS then s.(ime := v & 1 != 0)
    else s
  }

  /** `irqGetSignal()`. */
  predicate Signal(s: IrqState) {
    s.ime && s.ie & s.iflag != 0
  }

  /** A raised request is pending in IF afterwards, and no other bit changes. */
  lemma RaiseSetsRequest(flags: bv16, mask: bv16)
    ensures Raise(flags, mask) & mask == mask
    ensures Raise(flags, mask) & !mask == flags & !mask
  {
  }

  /** Writing IF clears exactly the written bits and keeps the rest. */
  lemma AcknowledgeClearsWritten(flags: bv16, v: bv16)
    ensures Acknowledge(flags, v) & v == 0
    ensures Acknowledge(flags, v) & !v == flags & !v
  {
  }

  /** Writing back what IF reads clears every request. */
  lemma AcknowledgeAll(s: IrqState)
    ensures WriteSpec(s, IF_ADDRESS, ReadSpec(s, IF_ADDRESS)).iflag == 0
    ensures !Signal(WriteSpec(s, IF_ADDRESS, ReadSpec(s, IF_ADDRESS)))
  {
  }

  /** Raising a source that IE enables makes the signal go up when IME is set. */
  lemma RaiseSignals(s: IrqState, mask: bv16)
    requires s.ime && s.ie & mask != 0
    ensures Signal(s.(iflag := Raise(s.iflag, mask)))
  {
  }

  /** With IME clear the signal stays down whatever IE and IF hold. */
  lemma MasterDisableMasks(s: IrqState)
    requires !s.ime
    ensures !Signal(s)
  {
  }

  /** IE reads back what was written. */
  lemma WriteThenReadIe(s: IrqState, v: bv16)
    ensures ReadSpec(WriteSpec(s, IE_ADDRESS, v), IE_ADDRESS) == v
  {
  }

  /** IME keeps only bit 0 of a write and reads as 1 or 0. */
  lemma WriteThenReadIme(s: IrqState, v: bv16)
    ensures ReadSpec(WriteSpec(s, IME_ADDRESS, v), IME_ADDRESS) == v & 1
  {
  }

  /** Other addresses read 0xffff and ignore writes. */
  lemma UnknownAddress(s: IrqState, addr: bv32, v: bv16)
    requires addr != IE_ADDRESS && addr != IF_ADDRESS && addr != IME_ADDRESS
    ensures ReadSpec(s, addr) == 0xffff && WriteSpec(s, addr, v) == s
  {
  }

  /** The static registers of irq.c. */
  class Irq {
    var ie: bv16
    var iflag: bv16
    var ime: bool

    ghost function State(): IrqState
      reads this
    {
      IrqState(ie, iflag, ime)
    }

    /** The zero state the C globals start in. */
    constructor ()
      ensures State() == IrqState(0, 0, false)
    {
      ie, iflag, ime := 0, 0, false;
    }

    /** `irqReset`: clears IE and IF; IME is left as it is. */
    method Reset()
      modifies this
      ensures State() == IrqState(0, 0, old(ime))
    {
      ie := 0;
      iflag := 0;
    }

    /** `irqRaise(mask)`. */
    method RaiseIrq(mask: bv16)
      modifies this
      ensures State() == old(State()).(iflag := Raise(old(iflag), mask))
    {
      iflag := Raise(iflag, mask);
    }

    /** `irqIoRead16(addr)`. */
    method IoRead16(addr: bv32) returns (v: bv16)
      ensures v == ReadSpec(State(), addr)
    {
      if addr == IE_ADDRESS {
        v := ie;
      } else if addr == IF_ADDRESS {
        v := iflag;
      } else if addr == IME_ADDRESS {
        v := if ime then 1 else 0;
      } else {
        v := 0xffff;
      }
    }

    /** `irqIoWrite16(addr, v)`. */
    method IoWrite16(addr: bv32, v: bv16)
      modifies this
      ensures State() == WriteSpec(old(State()), addr, v)
    {
      if addr == IE_ADDRESS {
        ie := v;
      } else if addr == IF_ADDRESS {
        iflag := Acknowledge(iflag, v);
      } else if addr == IME_ADDRESS {
        ime := v & 1 != 0;
      }
    }

    /** `irqGetSignal()`. */
    method GetSignal() returns (b: bool)
      ensures b == Signal(State())
    {
      b := ime && ie & iflag != 0;
    }
  }
}
