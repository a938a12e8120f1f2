// The selection sort of src/gbaemu/gba/lcd.cpp, `sortLayersByPriority`
// (lines 26-50): the four background layers start as 3, 2, 1, 0 and, for
// each of the first three positions, the entry at the position of the
// largest key from there on is swapped in.
//
// As written, the keys are looked up by POSITION (`io::get(BG0CNT + 2 * j)`)
// while the array entries move, so the key compared at position `j` is
// layer `j`'s, whichever layer now sits there; and it is the whole BGxCNT
// register rather than its priority bits. The corrected sort looks up the
// priority (bits 1-0) of the layer at each position.

module CppLayerSort {

  /** The number of background layers. */
  const LAYERS: nat := 4

  /** The order `sortLayersByPriority` starts from. */
  const INITIAL: seq<int> := [3, 2, 1, 0]

  /** Every entry names one of the four layers. */
  predicate LayerIndices(s: seq<int>) {
    forall k :: 0 <= k < |s| ==> 0 <= s[k] < LAYERS
  }

  /** `s` with entries `i` and `j` exchanged through `exchange`. */
  function Swap(s: seq<int>, i: nat, j: nat): (r: seq<int>)
    requires i < |s| && j < |s|
    ensures |r| == |s| && r[i] == s[j] && r[j] == s[i]
    ensures forall k :: 0 <= k < |s| && k != i && k != j ==> r[k] == s[k]
  {
    s[i := s[j]][j := s[i]]
  }

  /**
   * The inner loop: scanning `keys` from `j` on, with the largest key so
   * far at `best`; a key replaces the best only when it is strictly larger.
   */
  function Selected(keys: seq<int>, best: nat, j: nat): (m: nat)
    requires best < j <= |keys|
    ensures best <= m < |keys|
    decreases |keys| - j
  {
    if j == |keys| then best
    else Selected(keys, if keys[j] > keys[best] then j else best, j + 1)
  }

  /** The selected key is the largest of the best so far and of every key from `j` on. */
  lemma {:induction false} SelectedIsLargest(keys: seq<int>, best: nat, j: nat)
    requires best < j <= |keys|
    ensures var m := Selected(keys, best, j);
            keys[m] >= keys[best] && forall k :: j <= k < |keys| ==> keys[k] <= keys[m]
    decreases |keys| - j
  {
    if j < |keys| {
      SelectedIsLargest(keys, if keys[j] > keys[best] then j else best, j + 1);
    }
  }

  /** One step of the inner loop. */
  lemma SelectedStep(keys: seq<int>, best: nat, j: nat)
    requires best < j < |keys|
    ensures Selected(keys, best, j) == Selected(keys, if keys[j] > keys[best] then j else best, j + 1)
  {
  }

  /** The key of the layer at each position, `keys` being indexed by layer. */
  function Keyed(keys: seq<int>, layers: seq<int>): (r: seq<int>)
    requires |keys| == LAYERS && LayerIndices(layers)
    ensures |r| == |layers| && forall k :: 0 <= k < |layers| ==> r[k] == keys[layers[k]]
  {
    seq(|layers|, k requires 0 <= k < |layers| => keys[layers[k]])
  }

  /** The keys the inner loop compares: by position as written, by the layer at the position corrected. */
  function Compared(keys: seq<int>, layers: seq<int>, corrected: bool): (r: seq<int>)
    requires |keys| == LAYERS && |layers| == LAYERS && LayerIndices(layers)
    ensures |r| == LAYERS
  {
    if corrected then Keyed(keys, layers) else keys
  }

  /** The key compared at position `j`. */
  lemma ComparedAt(keys: seq<int>, layers: seq<int>, corrected: bool, j: nat)
    requires |keys| == LAYERS && |layers| == LAYERS && LayerIndices(layers) && j < LAYERS
    ensures Compared(keys, layers, corrected)[j] == keys[if corrected then layers[j] else j]
  {
  }

  /** The outer loop from position `i` on. */
  function Passes(keys: seq<int>, layers: seq<int>, i: nat, corrected: bool): (r: seq<int>)
    requires |keys| == LAYERS && |layers| == LAYERS && LayerIndices(layers) && i <= LAYERS - 1
    ensures |r| == LAYERS && LayerIndices(r)
    decreases LAYERS - 1 - i, keys
  {
    if i == LAYERS - 1 then layers
    else
      var next := Swap(layers, i, Selected(Compared(keys, layers, corrected), i, i + 1));
      Passes(keys, next, i + 1, corrected)
  }

  /** One pass of the outer loop. */
  lemma PassesStep(keys: seq<int>, layers: seq<int>, i: nat, corrected: bool)
    requires |keys| == LAYERS && |layers| == LAYERS && LayerIndices(layers) && i < LAYERS - 1
    ensures var next := Swap(layers, i, Selected(Compared(keys, layers, corrected), i, i + 1));
            LayerIndices(next) && Passes(keys, layers, i, corrected) == Passes(keys, next, i + 1, corrected)
  {
  }

  /** `sortLayersByPriority` with the layer keys `keys` (indexed by layer). */
  function Sorted(keys: seq<int>, corrected: bool): (r: seq<int>)
    requires |keys| == LAYERS
    ensures |r| == LAYERS && LayerIndices(r)
  {
    Passes(keys, INITIAL, 0, corrected)
  }

  /** The layers in order of non-increasing key. */
  predicate ByKey(keys: seq<int>, s: seq<int>)
    requires |keys| == LAYERS && LayerIndices(s)
  {
    forall a, b :: 0 <= a < b < |s| ==> keys[s[a]] >= keys[s[b]]
  }

  /** The first `i` positions are in order and hold keys no smaller than any after them. */
  predicate PrefixByKey(keys: seq<int>, s: seq<int>, i: nat)
    requires |keys| == LAYERS && LayerIndices(s)
  {
    forall a, b :: 0 <= a < b < |s| && a < i ==> keys[s[a]] >= keys[s[b]]
  }

  /** A swap keeps the entries. */
  lemma SwapKeeps(s: seq<int>, i: nat, j: nat)
    requires i < |s| && j < |s|
    ensures multiset(Swap(s, i, j)) == multiset(s)
  {
  }

  /** The passes only exchange entries. */
  lemma {:induction false} PassesKeep(keys: seq<int>, layers: seq<int>, i: nat, corrected: bool)
    requires |keys| == LAYERS && |layers| == LAYERS && LayerIndices(layers) && i <= LAYERS - 1
    ensures multiset(Passes(keys, layers, i, corrected)) == multiset(layers)
    decreases LAYERS - 1 - i
  {
    if i < LAYERS - 1 {
      var next := Swap(layers, i, Selected(Compared(keys, layers, corrected), i, i + 1));
      SwapKeeps(layers, i, Selected(Compared(keys, layers, corrected), i, i + 1));
      PassesKeep(keys, next, i + 1, corrected);
    }
  }

  /** The sort leaves a permutation of the four layers, each exactly once. */
  lemma SortIsPermutation(keys: seq<int>, corrected: bool)
    requires |keys| == LAYERS
    ensures multiset(Sorted(keys, corrected)) == multiset{0, 1, 2, 3}
  {
    PassesKeep(keys, INITIAL, 0, corrected);
    assert multiset(INITIAL) == multiset{0, 1, 2, 3};
  }

  /** One corrected pass puts the largest remaining key at position `i`. */
  lemma CorrectedStep(keys: seq<int>, s: seq<int>, i: nat)
    requires |keys| == LAYERS && |s| == LAYERS && LayerIndices(s) && i < LAYERS - 1
    requires PrefixByKey(keys, s, i)
    ensures var next := Swap(s, i, Selected(Keyed(keys, s), i, i + 1));
            LayerIndices(next) && PrefixByKey(keys, next, i + 1)
  {
    var m := Selected(Keyed(keys, s), i, i + 1);
    SelectedIsLargest(Keyed(keys, s), i, i + 1);
    var next := Swap(s, i, m);
    forall a, b | 0 <= a < b < |next| && a < i + 1
      ensures keys[next[a]] >= keys[next[b]]
    {
      // every entry at or after `i` came from a position at or after `i`
      var c := if b == i then m else if b == m then i else b;
      assert next[b] == s[c] && (b >= i ==> c >= i);
      if a == i {
        assert keys[next[a]] == Keyed(keys, s)[m];
        assert keys[next[b]] == Keyed(keys, s)[c];
      }
    }
  }

  /** Corrected passes from a sorted prefix of length `i` sort the whole order. */
  lemma {:induction false} CorrectedPasses(keys: seq<int>, s: seq<int>, i: nat)
    requires |keys| == LAYERS && |s| == LAYERS && LayerIndices(s) && i <= LAYERS - 1
    requires PrefixByKey(keys, s, i)
    ensures ByKey(keys, Passes(keys, s, i, true))
    decreases LAYERS - 1 - i
  {
    if i < LAYERS - 1 {
      CorrectedStep(keys, s, i);
      CorrectedPasses(keys, Swap(s, i, Selected(Keyed(keys, s), i, i + 1)), i + 1);
    }
  }

  /** Corrected, the sort orders the layers by non-increasing priority. */
  lemma CorrectedSortOrders(keys: seq<int>)
    requires |keys| == LAYERS
    ensures ByKey(keys, Sorted(keys, true))
  {
    CorrectedPasses(keys, INITIAL, 0);
  }

  /**
   * As written, whenever layer 3 has the strictly largest key (say BG3CNT
   * is 1 and the other three are 0), the order is 0, 3, 2, 1: layer 0
   * comes first although layer 3's key is larger.
   */
  lemma SortAsWrittenCounterexample(keys: seq<int>)
    requires |keys| == LAYERS && keys[3] > keys[0] && keys[3] > keys[1] && keys[3] > keys[2]
    ensures var r := Sorted(keys, false);
            r[0] == 0 && r[1] == 3 && r[2] == 2 && r[3] == 1
    ensures !ByKey(keys, Sorted(keys, false))
  {
    var s1 := Swap(INITIAL, 0, 3);
    PassAsWritten(keys, INITIAL, 0);
    var s2 := Swap(s1, 1, 3);
    PassAsWritten(keys, s1, 1);
    var s3 := Swap(s2, 2, 3);
    PassAsWritten(keys, s2, 2);
    assert Sorted(keys, false) == s3;
    assert s3[0] == 0 && s3[1] == 3;
  }

  /** One as-written pass when position 3 holds the strictly largest key. */
  lemma PassAsWritten(keys: seq<int>, s: seq<int>, i: nat)
    requires |keys| == LAYERS && keys[3] > keys[0] && keys[3] > keys[1] && keys[3] > keys[2]
    requires |s| == LAYERS && LayerIndices(s) && i < LAYERS - 1
    ensures Passes(keys, s, i, false) == Passes(keys, Swap(s, i, 3), i + 1, false)
  {
    LastIsSelected(keys, i, i + 1);
  }

  /** Scanning from `j`, a best that is not position 3 gives way to it. */
  lemma {:induction false} LastIsSelected(keys: seq<int>, best: nat, j: nat)
    requires |keys| == LAYERS && keys[3] > keys[0] && keys[3] > keys[1] && keys[3] > keys[2]
    requires best < j <= 3
    ensures Selected(keys, best, j) == 3
    decreases 3 - j
  {
    if j < 3 {
      LastIsSelected(keys, if keys[j] > keys[best] then j else best, j + 1);
    }
  }
}
