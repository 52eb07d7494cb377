/**
 The fixed configuration the flower scripts share: the table of petal counts
 per layer, the table of petal vertex offsets, and the flower presets.
 */
module FlowerTables {
  import opened MayaScene

  /** Petal counts of the three concentric rings, outermost first. */
  datatype LayerSet = LayerSet(base: int, mid: int, inner: int)

  /** A flower preset: box dimensions and subdivisions for the petal template,
      disk radius and height, and the radius of the petal ring. */
  datatype FlowerType = FlowerType(
    width: real, height: real, depth: real,
    subdivX: int, subdivY: int, subdivZ: int,
    radius: real, petalEdge: real)

  /** The Fibonacci numbers F(0), ..., F(k - 1), starting 1, 2. */
  function Fibonacci(k: nat): (fs: seq<int>)
    ensures |fs| == k
  {
    if k == 0 then []
    else if k == 1 then [1]
    else if k == 2 then [1, 2]
    else var p := Fibonacci(k - 1); p + [p[k - 2] + p[k - 3]]
  }

  lemma FibonacciUpTo89()
    ensures Fibonacci(10) == [1, 2, 3, 5, 8, 13, 21, 34, 55, 89]
  {
    assert Fibonacci(3) == [1, 2, 3];
    assert Fibonacci(5) == [1, 2, 3, 5, 8];
    assert Fibonacci(7) == [1, 2, 3, 5, 8, 13, 21];
    assert Fibonacci(9) == [1, 2, 3, 5, 8, 13, 21, 34, 55];
  }

  /** The supported layer sets, searched in this order. The rings never grow
      inwards, and the base counts strictly increase, so no two entries share
      a base count. */
  function LayerSets(): (t: seq<LayerSet>)
    ensures |t| == 7
    ensures forall j :: 0 <= j < |t| ==> 0 < t[j].inner <= t[j].mid <= t[j].base
    ensures forall j, k :: 0 <= j < k < |t| ==> t[j].base < t[k].base
  {
    [ LayerSet(3, 3, 3), LayerSet(5, 5, 3), LayerSet(8, 8, 5), LayerSet(13, 8, 5),
      LayerSet(21, 13, 8), LayerSet(34, 21, 13), LayerSet(55, 34, 21) ]
  }

  /** Every petal count of every supported layer set is a Fibonacci number. */
  lemma LayerSetsAreFibonacci()
    ensures forall j :: 0 <= j < |LayerSets()| ==>
      LayerSets()[j].base in Fibonacci(10) && LayerSets()[j].mid in Fibonacci(10)
      && LayerSets()[j].inner in Fibonacci(10)
  {
    FibonacciUpTo89();
    var fib := Fibonacci(10);
    assert fib[1] == 2 && fib[2] == 3 && fib[3] == 5 && fib[4] == 8;
    assert fib[5] == 13 && fib[6] == 21 && fib[7] == 34 && fib[8] == 55;
  }

  /** The first entry of `table` whose base count is `base`; ValueError when none is. */
  function FirstWithBase(table: seq<LayerSet>, base: int): (r: Result<LayerSet>)
    ensures r.Ok? <==> exists j :: 0 <= j < |table| && table[j].base == base
    ensures r.Err? ==> r.error == ValueError
    ensures r.Ok? ==> r.value.base == base
    ensures r.Ok? ==> exists j :: 0 <= j < |table| && table[j] == r.value &&
                                 (forall k :: 0 <= k < j ==> table[k].base != base)
  {
    if table == [] then Err(ValueError)
    else if table[0].base == base then Ok(table[0])
    else
      var r := FirstWithBase(table[1..], base);
      assert forall j :: 1 <= j < |table| ==> table[j] == table[1..][j - 1];
      assert r.Ok? ==> forall k :: 0 <= k < 1 ==> table[k].base != base;
      r
  }

  /** Resolves a base petal count to its layer set. */
  function FindLayerSet(base: int): (r: Result<LayerSet>)
    ensures r.Ok? <==> base in {3, 5, 8, 13, 21, 34, 55}
    ensures r.Err? ==> r.error == ValueError
    ensures r.Ok? ==> r.value.base == base && r.value in LayerSets()
    ensures r.Ok? ==> 0 < r.value.inner <= r.value.mid <= base
  {
    var t := LayerSets();
    assert t[0].base == 3 && t[1].base == 5 && t[2].base == 8 && t[3].base == 13;
    assert t[4].base == 21 && t[5].base == 34 && t[6].base == 55;
    FirstWithBase(t, base)
  }

  /** Per-vertex offsets that sculpt one edge of the box into a petal outline,
      from the petal's base to its tip. */
  function VertexMoves(): seq<Vec>
  {
    [ Vec(0.1, 0.13, 0.18), Vec(0.2, 0.15, 0.21),
      Vec(0.4, 0.17, 0.23), Vec(0.6, 0.15, 0.24),
      Vec(0.8, 0.16, 0.18), Vec(1.0, 0.2, 0.0) ]
  }

  /** The same offset reflected across the petal's long axis. */
  function Mirror(v: Vec): Vec
  {
    Vec(v.x, v.y, -v.z)
  }

  /** The shape the offset table gives a petal edge: each offset reaches
      further along the petal than the one before, every offset bulges to
      the same side, and the tip lies on the petal's axis, so its mirror
      image is itself. */
  lemma PetalProfile()
    ensures forall j, k :: 0 <= j < k < |VertexMoves()| ==> VertexMoves()[j].x < VertexMoves()[k].x
    ensures forall j :: 0 <= j < |VertexMoves()| ==> 0.0 <= VertexMoves()[j].z
    ensures VertexMoves()[5].z == 0.0 && Mirror(VertexMoves()[5]) == VertexMoves()[5]
  {
  }
}
