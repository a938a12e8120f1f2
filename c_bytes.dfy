// The byte-array stores of the C core (work RAM in src/core/ewram.c and
// src/core/iwram.c; OAM, palette RAM and VRAM in src/core/gpu.c) all lay a
// halfword or a word out little-endian over consecutive cells starting at
// a computed index. These are those layouts on the array contents.

module CBytes {
  import opened Bits

  /** `data[k] | (data[k + 1] << 8)`. */
  function Load16(c: seq<bv8>, k: nat): bv16
    requires k + 1 < |c|
  {
    Join8(c[k], c[k + 1])
  }

  /** `data[k] | (data[k + 1] << 8) | (data[k + 2] << 16) | (data[k + 3] << 24)`. */
  function Load32(c: seq<bv8>, k: nat): bv32
    requires k + 3 < |c|
  {
    Bytes4(c[k], c[k + 1], c[k + 2], c[k + 3])
  }

  /** Four bytes, least significant first, as a word. */
  function Bytes4(b0: bv8, b1: bv8, b2: bv8, b3: bv8): bv32 {
    (b0 as bv32) | ((b1 as bv32) << 8) | ((b2 as bv32) << 16) | ((b3 as bv32) << 24)
  }

  /** The two byte stores `data[k] = (uint8_t)v; data[k + 1] = (uint8_t)(v >> 8)`. */
  function Store16(c: seq<bv8>, k: nat, v: bv16): (c': seq<bv8>)
    requires k + 1 < |c|
    ensures |c'| == |c|
  {
    c[k := Lo8(v)][k + 1 := Hi8(v)]
  }

  /** The four byte stores of a word, least significant byte at `k`. */
  function Store32(c: seq<bv8>, k: nat, v: bv32): (c': seq<bv8>)
    requires k + 3 < |c|
    ensures |c'| == |c|
  {
    c[k := ByteOf(v, 0)][k + 1 := ByteOf(v, 1)][k + 2 := ByteOf(v, 2)][k + 3 := ByteOf(v, 3)]
  }

  /** A word is made of its own four bytes. */
  lemma Bytes4OfWord(v: bv32)
    ensures Bytes4(ByteOf(v, 0), ByteOf(v, 1), ByteOf(v, 2), ByteOf(v, 3)) == v
  {
  }

  /** A halfword stored at `k` is loaded back from `k`. */
  lemma Store16ThenLoad16(c: seq<bv8>, k: nat, v: bv16)
    requires k + 1 < |c|
    ensures Load16(Store16(c, k, v), k) == v
  {
    Join8Split(v);
  }

  /** A word stored at `k` is loaded back from `k`. */
  lemma Store32ThenLoad32(c: seq<bv8>, k: nat, v: bv32)
    requires k + 3 < |c|
    ensures Load32(Store32(c, k, v), k) == v
  {
    var c' := Store32(c, k, v);
    assert c'[k] == ByteOf(v, 0) && c'[k + 1] == ByteOf(v, 1);
    assert c'[k + 2] == ByteOf(v, 2) && c'[k + 3] == ByteOf(v, 3);
    Bytes4OfWord(v);
  }

  /** A word is its low halfword at `k` and its high halfword at `k + 2`. */
  lemma Load32Halves(c: seq<bv8>, k: nat)
    requires k + 3 < |c|
    ensures Load32(c, k) == Join16(Load16(c, k), Load16(c, k + 2))
  {
    JoinBytes(c[k], c[k + 1], c[k + 2], c[k + 3]);
  }

  lemma JoinBytes(b0: bv8, b1: bv8, b2: bv8, b3: bv8)
    ensures Bytes4(b0, b1, b2, b3) == Join16(Join8(b0, b1), Join8(b2, b3))
  {
  }

  /** A halfword store changes its two cells and no other. */
  lemma Store16Frame(c: seq<bv8>, k: nat, v: bv16, j: nat)
    requires k + 1 < |c| && j < |c| && j != k && j != k + 1
    ensures Store16(c, k, v)[j] == c[j]
  {
  }

  /** A word store changes its four cells and no other. */
  lemma Store32Frame(c: seq<bv8>, k: nat, v: bv32, j: nat)
    requires k + 3 < |c| && j < |c| && (j < k || k + 3 < j)
    ensures Store32(c, k, v)[j] == c[j]
  {
  }

  /** A halfword load that does not overlap a store sees the old cells. */
  lemma Store16Disjoint(c: seq<bv8>, k: nat, v: bv16, j: nat)
    requires k + 1 < |c| && j + 1 < |c| && (j + 1 < k || k + 1 < j)
    ensures Load16(Store16(c, k, v), j) == Load16(c, j)
  {
    Store16Frame(c, k, v, j);
    Store16Frame(c, k, v, j + 1);
  }

  /** A byte stored into two consecutive cells, as the C core's byte writes to video memory do. */
  function StoreTwice(c: seq<bv8>, k: nat, v: bv8): (c': seq<bv8>)
    requires k + 1 < |c|
    ensures |c'| == |c|
  {
    c[k := v][k + 1 := v]
  }

  /** Storing a byte twice is storing the halfword with that byte in both halves. */
  lemma StoreTwiceIsStore16(c: seq<bv8>, k: nat, v: bv8)
    requires k + 1 < |c|
    ensures StoreTwice(c, k, v) == Store16(c, k, Join8(v, v))
  {
    Split8Join(v, v);
  }

  // The same accesses on an array, as the methods of the stores perform them.

  method Load16At(d: array<bv8>, k: nat) returns (v: bv16)
    requires k + 1 < d.Length
    ensures v == Load16(d[..], k)
  {
    v := Join8(d[k], d[k + 1]);
  }

  method Load32At(d: array<bv8>, k: nat) returns (v: bv32)
    requires k + 3 < d.Length
    ensures v == Load32(d[..], k)
  {
    v := Bytes4(d[k], d[k + 1], d[k + 2], d[k + 3]);
  }

  method Store16At(d: array<bv8>, k: nat, v: bv16)
    requires k + 1 < d.Length
    modifies d
    ensures d[..] == Store16(old(d[..]), k, v)
  {
    d[k] := Lo8(v);
    d[k + 1] := Hi8(v);
  }

  method Store32At(d: array<bv8>, k: nat, v: bv32)
    requires k + 3 < d.Length
    modifies d
    ensures d[..] == Store32(old(d[..]), k, v)
  {
    d[k] := ByteOf(v, 0);
    d[k + 1] := ByteOf(v, 1);
    d[k + 2] := ByteOf(v, 2);
    d[k + 3] := ByteOf(v, 3);
  }

  method StoreTwiceAt(d: array<bv8>, k: nat, v: bv8)
    requires k + 1 < d.Length
    modifies d
    ensures d[..] == StoreTwice(old(d[..]), k, v)
  {
    d[k] := v;
    d[k + 1] := v;
  }

  /** `memset(d, 0, size)`. */
  method Zero(d: array<bv8>)
    modifies d
    ensures forall k :: 0 <= k < d.Length ==> d[k] == 0
  {
    for i := 0 to d.Length
      invariant forall k :: 0 <= k < i ==> d[k] == 0
    {
      d[i] := 0;
    }
  }
}
