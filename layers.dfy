/**
 The handle numbering shared by the layered scripts: the disk, then per
 layer a template followed by that layer's copies, so the k-th layer's
 template is the disk's handle plus one plus the span of the earlier layers.
 */
module FlowerLayers {
  import opened MayaScene
  import opened FlowerTables

  /** The layer names, outermost first, in the order the layers are built. */
  const LayerNames := ["base", "mid", "inner"]

  /** Every layer of the flower has at least one petal. */
  predicate AllPositive(counts: seq<nat>)
  {
    forall j :: 0 <= j < |counts| ==> counts[j] > 0
  }

  /** The petal counts of a layer set, outermost layer first. */
  function Counts(layers: LayerSet): (counts: seq<nat>)
    requires 0 < layers.inner && 0 < layers.mid && 0 < layers.base
  {
    [layers.base, layers.mid, layers.inner]
  }

  /** The number of handles the first k layers consume: a template and its
      copies per layer. */
  function Span(counts: seq<nat>, k: nat): nat
    requires k <= |counts|
  {
    if k == 0 then 0 else Span(counts, k - 1) + 1 + counts[k - 1]
  }

  /** The copies the first k layers produce, layer after layer. */
  function LayersPetals(first: Handle, counts: seq<nat>, k: nat): seq<Handle>
    requires k <= |counts|
  {
    if k == 0 then []
    else LayersPetals(first, counts, k - 1) + Handles(first + Span(counts, k - 1) + 1, counts[k - 1])
  }

  /** The copies of the first k layers, one list per layer. */
  function LayerGroups(first: Handle, counts: seq<nat>, k: nat): seq<seq<Handle>>
    requires k <= |counts|
  {
    if k == 0 then []
    else LayerGroups(first, counts, k - 1) + [Handles(first + Span(counts, k - 1) + 1, counts[k - 1])]
  }

  /** The concatenation of a list of lists. */
  function Flatten(groups: seq<seq<Handle>>): seq<Handle>
  {
    if groups == [] then [] else Flatten(groups[..|groups| - 1]) + groups[|groups| - 1]
  }

  /** Collecting each layer's copies as a list of its own and then
      concatenating them gives the flat petal list, and there is one list per
      layer, each as long as its layer's count. */
  lemma {:induction false} GroupsFlatten(first: Handle, counts: seq<nat>, k: nat)
    requires k <= |counts|
    ensures Flatten(LayerGroups(first, counts, k)) == LayersPetals(first, counts, k)
    ensures |LayerGroups(first, counts, k)| == k
    ensures forall j :: 0 <= j < k ==> |LayerGroups(first, counts, k)[j]| == counts[j]
  {
    if k > 0 {
      GroupsFlatten(first, counts, k - 1);
      var groups := LayerGroups(first, counts, k);
      assert groups[..|groups| - 1] == LayerGroups(first, counts, k - 1);
    }
  }

  /** A list of layer lists that held the first k layers and grew by layer k's
      list holds the first k + 1. */
  lemma LayerGroupsGrow(first: Handle, counts: seq<nat>, k: nat, current: seq<seq<Handle>>, after: seq<seq<Handle>>)
    requires k < |counts|
    requires current == LayerGroups(first, counts, k)
    requires after == current + [Handles(first + Span(counts, k) + 1, counts[k])]
    ensures after == LayerGroups(first, counts, k + 1)
  {
  }

  /** A petal list that held the first k layers' copies and grew by layer k's
      holds the first k + 1 layers' copies. */
  lemma LayersPetalsGrow(first: Handle, counts: seq<nat>, k: nat,
                         before: seq<Handle>, current: seq<Handle>, after: seq<Handle>)
    requires k < |counts|
    requires current == before + LayersPetals(first, counts, k)
    requires after == current + Handles(first + Span(counts, k) + 1, counts[k])
    ensures after == before + LayersPetals(first, counts, k + 1)
  {
  }

  /** A scene graph that held the first k layers' copies and gained layer k's
      holds the first k + 1 layers' copies. */
  lemma LayersLiveGrow(first: Handle, counts: seq<nat>, k: nat,
                       liveBefore: set<Handle>, liveCurrent: set<Handle>, liveAfter: set<Handle>)
    requires k < |counts|
    requires liveCurrent == liveBefore + Elems(LayersPetals(first, counts, k))
    requires liveAfter == liveCurrent + Elems(Handles(first + Span(counts, k) + 1, counts[k]))
    ensures liveAfter == liveBefore + Elems(LayersPetals(first, counts, k + 1))
  {
    var copies := Handles(first + Span(counts, k) + 1, counts[k]);
    assert LayersPetals(first, counts, k + 1) == LayersPetals(first, counts, k) + copies;
    assert Elems(LayersPetals(first, counts, k) + copies) == Elems(LayersPetals(first, counts, k)) + Elems(copies);
  }

  /** The petals of a three-layer flower: `base` copies, then `mid`, then
      `inner`, each layer's copies numbered right after its own template, so
      there are base + mid + inner of them, all distinct, none a template. */
  lemma {:induction false} ThreeLayersPetals(first: Handle, base: nat, mid: nat, inner: nat)
    ensures Span([base, mid, inner], 3) == 3 + base + mid + inner
    ensures LayersPetals(first, [base, mid, inner], 3)
            == Handles(first + 1, base) + Handles(first + 2 + base, mid) + Handles(first + 3 + base + mid, inner)
    ensures |LayersPetals(first, [base, mid, inner], 3)| == base + mid + inner
    ensures forall j, k :: 0 <= j < k < base + mid + inner ==>
      LayersPetals(first, [base, mid, inner], 3)[j] < LayersPetals(first, [base, mid, inner], 3)[k]
    ensures first !in LayersPetals(first, [base, mid, inner], 3)
    ensures first + 1 + base !in LayersPetals(first, [base, mid, inner], 3)
    ensures first + 2 + base + mid !in LayersPetals(first, [base, mid, inner], 3)
  {
    var counts := [base, mid, inner];
    assert Span(counts, 1) == 1 + base;
    assert Span(counts, 2) == 2 + base + mid;
    var petals := LayersPetals(first, counts, 3);
    assert LayersPetals(first, counts, 1) == Handles(first + 1, base);
    assert LayersPetals(first, counts, 2) == Handles(first + 1, base) + Handles(first + 2 + base, mid);
    forall j | 0 <= j < base + mid + inner
      ensures petals[j] == if j < base then first + 1 + j
                           else if j < base + mid then first + 2 + j
                           else first + 3 + j
    {
      if j < base {
        assert petals[j] == Handles(first + 1, base)[j];
      } else if j < base + mid {
        assert petals[j] == Handles(first + 2 + base, mid)[j - base];
      } else {
        assert petals[j] == Handles(first + 3 + base + mid, inner)[j - base - mid];
      }
    }
  }

}
