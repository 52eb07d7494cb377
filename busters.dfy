/**
 bustersflowers.py: the `Flower` class. It builds a disk, then for each of the
 base, mid and inner layers sculpts a petal template by splitting its vertex
 indices into two halves, arranges copies of it in a ring, deletes the
 template and collects the copies into the `allPetals` field.
 */
module BustersFlowers {
  import opened MayaScene
  import opened FlowerTables
  import opened RingLayout
  import opened FlowerLayers

  /** The default base petal count of a new flower. */
  const DefaultBasePetalCount := 21

  /** How far above its own height the disk is lifted. */
  const DiskLift := 0.08

  /** The half-open index range start, start + 1, ..., stop - 1. */
  datatype IndexRange = IndexRange(start: int, stop: int) {
    function Size(): nat
    {
      if stop < start then 0 else stop - start
    }

    predicate Contains(v: int)
    {
      start <= v < stop
    }
  }

  /** The offset of the i-th vertex of a half, mirrored on the right half; the
      table repeats when a half is longer than it. */
  function HalfOffset(i: int, mirrored: bool): Vec
  {
    var v := VertexMoves()[i % 6];
    if mirrored then Mirror(v) else v
  }

  /** The offset _move_vertices gives vertex v of an n-vertex template: the
      left half 0..n/2-1 walks the table from its start, the right half
      n/2..n-1 walks it again from its start, mirrored. */
  function SculptOffset(n: nat, v: int): Vec
  {
    if v < n / 2 then HalfOffset(v, false) else HalfOffset(v - n / 2, true)
  }

  /** The moves of vertices 0..k-1 of an n-vertex template, in index order. */
  function SculptPrefix(petal: Handle, n: nat, k: nat): seq<Command>
  {
    seq(k, v => MoveVertex(petal, v, SculptOffset(n, v)))
  }

  lemma SculptPrefixGrows(petal: Handle, n: nat, k: nat)
    ensures SculptPrefix(petal, n, k + 1) == SculptPrefix(petal, n, k) + [MoveVertex(petal, k, SculptOffset(n, k))]
  {
    var longer, shorter := SculptPrefix(petal, n, k + 1), SculptPrefix(petal, n, k);
    var step := MoveVertex(petal, k, SculptOffset(n, k));
    forall v | 0 <= v < k + 1
      ensures longer[v] == (shorter + [step])[v]
    {
    }
  }

  /** One move of the left loop of _move_vertices: vertex i < n/2 to table
      entry i mod 6 extends the plan by one vertex. */
  lemma SculptLeft(petal: Handle, n: nat, i: nat, base: seq<Command>, current: seq<Command>, after: seq<Command>)
    requires i < n / 2
    requires current == base + SculptPrefix(petal, n, i)
    requires after == current + [MoveVertex(petal, i, VertexMoves()[i % 6])]
    ensures after == base + SculptPrefix(petal, n, i + 1)
  {
    SculptPrefixGrows(petal, n, i);
  }

  /** One move of the right loop of _move_vertices: vertex n/2 + i to the
      mirror of table entry i mod 6 extends the plan by one vertex. */
  lemma SculptRight(petal: Handle, n: nat, i: nat, base: seq<Command>, current: seq<Command>, after: seq<Command>)
    requires n / 2 + i < n
    requires current == base + SculptPrefix(petal, n, n / 2 + i)
    requires after == current + [MoveVertex(petal, n / 2 + i, Mirror(VertexMoves()[i % 6]))]
    ensures after == base + SculptPrefix(petal, n, n / 2 + i + 1)
  {
    assert SculptOffset(n, n / 2 + i) == Mirror(VertexMoves()[i % 6]);
    SculptPrefixGrows(petal, n, n / 2 + i);
  }

  /** Every vertex move the sculpting of an n-vertex template issues. */
  function HalvesPlan(petal: Handle, n: nat): seq<Command>
  {
    SculptPrefix(petal, n, n)
  }

  /** The plan moves each vertex 0..n-1 exactly once, in index order; vertex
      i of the left half gets table entry i mod 6, vertex n/2 + i of the
      right half gets the mirror of entry i mod 6. */
  lemma HalvesPlanCoversVertices(petal: Handle, n: nat)
    ensures |HalvesPlan(petal, n)| == n
    ensures forall v {:trigger HalvesPlan(petal, n)[v]} :: 0 <= v < n / 2 ==>
      HalvesPlan(petal, n)[v] == MoveVertex(petal, v, VertexMoves()[v % 6])
    ensures forall v {:trigger HalvesPlan(petal, n)[v]} :: n / 2 <= v < n ==>
      HalvesPlan(petal, n)[v] == MoveVertex(petal, v, Mirror(VertexMoves()[(v - n / 2) % 6]))
  {
  }

  /** Mirror symmetry of the sculpting: the i-th vertex of the right half gets
      the x and y of the i-th vertex of the left half and the opposite z. */
  lemma HalvesMirror(petal: Handle, n: nat, i: nat)
    requires i < n / 2
    ensures HalvesPlan(petal, n)[n / 2 + i].to.x == HalvesPlan(petal, n)[i].to.x
    ensures HalvesPlan(petal, n)[n / 2 + i].to.y == HalvesPlan(petal, n)[i].to.y
    ensures HalvesPlan(petal, n)[n / 2 + i].to.z == -HalvesPlan(petal, n)[i].to.z
  {
    HalvesPlanCoversVertices(petal, n);
  }

  /** The commands of _create_disk. */
  function DiskLog(disk: Handle, ft: FlowerType, petalCount: int): seq<Command>
  {
    [Cylinder(disk, ft.radius, ft.height, petalCount),
     MoveObject(disk, At(Vec(0.0, ft.height + DiskLift, 0.0)))]
  }

  /** The commands of one layer: template `t` is created and sculpted, `count`
      copies numbered t + 1, ..., t + count are arranged, `t` is deleted. */
  function LayerLog(ft: FlowerType, cubeVertices: nat, t: Handle, count: nat): seq<Command>
    requires count > 0
  {
    [Cube(t, ft.width, ft.height, ft.depth, ft.subdivX, ft.subdivY)]
    + HalvesPlan(t, cubeVertices)
    + RingLog(TurnThenPlace, t, t + 1, count, ft.petalEdge, count)
    + [Delete(t), ClearSelection]
  }

  /** Around its ring, a layer issues no duplicate, placement or scaling:
      filtering its commands keeps what filtering the ring keeps. */
  lemma LayerFilter(kind: Kind, ft: FlowerType, cubeVertices: nat, t: Handle, count: nat)
    requires count > 0
    ensures Filter(kind, LayerLog(ft, cubeVertices, t, count))
            == Filter(kind, RingLog(TurnThenPlace, t, t + 1, count, ft.petalEdge, count))
  {
    var plan := HalvesPlan(t, cubeVertices);
    var setup := [Cube(t, ft.width, ft.height, ft.depth, ft.subdivX, ft.subdivY)] + plan;
    var ring := RingLog(TurnThenPlace, t, t + 1, count, ft.petalEdge, count);
    var tail := [Delete(t), ClearSelection];
    assert LayerLog(ft, cubeVertices, t, count) == setup + ring + tail;
    forall j | 0 <= j < |setup|
      ensures !OfKind(kind, setup[j])
    {
      if 1 <= j {
        assert setup[j] == plan[j - 1];
      }
    }
    FilterFramed(kind, setup, ring, tail);
  }

  /** A layer makes its template exactly `count` copies, numbered t + 1, ...,
      t + count, and places the i-th on the ring of radius petalEdge at
      i * 360 / count degrees. */
  lemma LayerRing(ft: FlowerType, cubeVertices: nat, t: Handle, count: nat)
    requires count > 0
    ensures |Filter(Duplicates, LayerLog(ft, cubeVertices, t, count))| == count
    ensures forall i :: 0 <= i < count ==>
      Filter(Duplicates, LayerLog(ft, cubeVertices, t, count))[i] == Duplicate(t, t + 1 + i)
    ensures |Filter(Placements, LayerLog(ft, cubeVertices, t, count))| == count
    ensures forall i {:trigger Filter(Placements, LayerLog(ft, cubeVertices, t, count))[i]} :: 0 <= i < count ==>
      Filter(Placements, LayerLog(ft, cubeVertices, t, count))[i]
        == MoveObject(t + 1 + i, OnRing(ft.petalEdge, Angle(i, count), 0.0))
  {
    LayerFilter(Duplicates, ft, cubeVertices, t, count);
    LayerFilter(Placements, ft, cubeVertices, t, count);
    RingDuplicates(TurnThenPlace, t, t + 1, count, ft.petalEdge, count);
    RingPlacements(TurnThenPlace, t, t + 1, count, ft.petalEdge, count);
  }

  /** The commands of the first k layers, the first template being `first`. */
  function LayersLog(ft: FlowerType, cubeVertices: nat, first: Handle, counts: seq<nat>, k: nat): seq<Command>
    requires AllPositive(counts) && k <= |counts|
  {
    if k == 0 then []
    else LayersLog(ft, cubeVertices, first, counts, k - 1)
         + LayerLog(ft, cubeVertices, first + Span(counts, k - 1), counts[k - 1])
  }

  /** A log that grew by a sculpted template and then by its ring grew by one layer. */
  lemma LayerLogSplit(ft: FlowerType, cubeVertices: nat, t: Handle, count: nat,
                      before: seq<Command>, sculpted: seq<Command>, after: seq<Command>)
    requires count > 0
    requires sculpted == before + [Cube(t, ft.width, ft.height, ft.depth, ft.subdivX, ft.subdivY)]
                                + HalvesPlan(t, cubeVertices)
    requires after == sculpted + RingLog(TurnThenPlace, t, t + 1, count, ft.petalEdge, count)
                               + [Delete(t), ClearSelection]
    ensures after == before + LayerLog(ft, cubeVertices, t, count)
  {
  }

  /** A log that held the first k layers and grew by layer k holds the first k + 1. */
  lemma LayersLogGrow(ft: FlowerType, cubeVertices: nat, first: Handle, counts: seq<nat>, k: nat,
                      before: seq<Command>, current: seq<Command>, after: seq<Command>)
    requires AllPositive(counts) && k < |counts|
    requires current == before + LayersLog(ft, cubeVertices, first, counts, k)
    requires after == current + LayerLog(ft, cubeVertices, first + Span(counts, k), counts[k])
    ensures after == before + LayersLog(ft, cubeVertices, first, counts, k + 1)
  {
    var prev := LayersLog(ft, cubeVertices, first, counts, k);
    var layer := LayerLog(ft, cubeVertices, first + Span(counts, k), counts[k]);
    assert LayersLog(ft, cubeVertices, first, counts, k + 1) == prev + layer;
    AppendAssoc(before, prev, layer);
  }

  /** A flower made with the default base count resolves the layer set
      (21, 13, 8) and arranges 21 + 13 + 8 = 42 petals. */
  lemma DefaultLayers(first: Handle)
    ensures FindLayerSet(DefaultBasePetalCount) == Ok(LayerSet(21, 13, 8))
    ensures |LayersPetals(first, Counts(LayerSet(21, 13, 8)), 3)| == 42
  {
    ThreeLayersPetals(first, 21, 13, 8);
  }

  class Flower {
    const flowerType: FlowerType
    const basePetalCount: int
    /** Every petal this flower has arranged, across calls of CreateFlower. */
    var allPetals: seq<Handle>

    constructor (flowerType: FlowerType, basePetalCount: int)
      ensures this.flowerType == flowerType && this.basePetalCount == basePetalCount
      ensures allPetals == []
    {
      this.flowerType := flowerType;
      this.basePetalCount := basePetalCount;
      allPetals := [];
    }

    /** _get_vertex_ranges: the left half 0 .. n/2 - 1 and the right half
        n/2 .. n - 1 of the vertex indices, by index order. */
    static function GetVertexRanges(n: nat): (r: (IndexRange, IndexRange))
      ensures r.0.start == 0 && r.0.stop == r.1.start && r.1.stop == n
      ensures r.0.Size() == n / 2 && r.1.Size() == n - n / 2
      ensures forall v :: 0 <= v < n <==> r.0.Contains(v) || r.1.Contains(v)
      ensures forall v :: !(r.0.Contains(v) && r.1.Contains(v))
    {
      (IndexRange(0, n / 2), IndexRange(n / 2, n))
    }

    /** _move_vertices: moves every vertex of the template once, left half
        first, each half walking the offset table cyclically. */
    method MoveVertices(scene: Scene, petal: Handle, numVertices: nat)
      requires scene.Valid()
      modifies scene
      ensures scene.Valid() && scene.next == old(scene.next) && scene.live == old(scene.live)
      ensures scene.log == old(scene.log) + HalvesPlan(petal, numVertices)
    {
      var (left, right) := GetVertexRanges(numVertices);
      var i := 0;
      while i < left.Size()
        invariant 0 <= i <= left.Size()
        invariant scene.Valid() && scene.next == old(scene.next) && scene.live == old(scene.live)
        invariant scene.log == old(scene.log) + SculptPrefix(petal, numVertices, left.start + i)
      {
        var pos := VertexMoves()[i % 6];
        ghost var before := scene.log;
        scene.Move(petal, left.start + i, pos);
        SculptLeft(petal, numVertices, i, old(scene.log), before, scene.log);
        i := i + 1;
      }
      i := 0;
      while i < right.Size()
        invariant 0 <= i <= right.Size()
        invariant scene.Valid() && scene.next == old(scene.next) && scene.live == old(scene.live)
        invariant scene.log == old(scene.log) + SculptPrefix(petal, numVertices, right.start + i)
      {
        var pos := VertexMoves()[i % 6];
        ghost var before := scene.log;
        scene.Move(petal, right.start + i, Vec(pos.x, pos.y, -pos.z));
        SculptRight(petal, numVertices, i, old(scene.log), before, scene.log);
        i := i + 1;
      }
    }

    /** _create_disk: a cylinder with one radial facet per base petal, lifted
        to the flower type's height plus 0.08. */
    method CreateDisk(scene: Scene, petalCount: int) returns (disk: Handle)
      requires scene.Valid()
      modifies scene
      ensures scene.Valid() && disk == old(scene.next) && scene.next == disk + 1
      ensures scene.live == old(scene.live) + {disk}
      ensures scene.log == old(scene.log) + DiskLog(disk, flowerType, petalCount)
    {
      disk := scene.PolyCylinder(flowerType.radius, flowerType.height, petalCount);
      scene.Place(disk, At(Vec(0.0, flowerType.height + DiskLift, 0.0)));
    }

    /** _create_petal: a box of the flower type's size, sculpted into a petal
        template; `cubeVertices` is the vertex count the host reports for it. */
    method CreatePetal(scene: Scene, layerType: string, cubeVertices: nat) returns (petal: Handle)
      requires scene.Valid()
      modifies scene
      ensures scene.Valid() && petal == old(scene.next) && scene.next == petal + 1
      ensures scene.live == old(scene.live) + {petal}
      ensures scene.log == old(scene.log)
              + [Cube(petal, flowerType.width, flowerType.height, flowerType.depth, flowerType.subdivX, flowerType.subdivY)]
              + HalvesPlan(petal, cubeVertices)
    {
      petal := scene.PolyCube(flowerType.width, flowerType.height, flowerType.depth,
                              flowerType.subdivX, flowerType.subdivY);
      MoveVertices(scene, petal, cubeVertices);
    }

    /** One iteration of _arrange_petals: a copy of the template turned by
        minus `angle` about y and placed on the ring at `angle`. */
    method PlaceCopy(scene: Scene, petal: Handle, angle: real) returns (petalInstance: Handle)
      requires scene.Valid()
      modifies scene
      ensures scene.Valid() && petalInstance == old(scene.next) && scene.next == petalInstance + 1
      ensures scene.live == old(scene.live) + {petalInstance}
      ensures scene.log == old(scene.log) + Steps(TurnThenPlace, petal, petalInstance, angle, flowerType.petalEdge)
    {
      petalInstance := scene.Copy(petal);
      scene.Turn(petalInstance, Vec(0.0, -angle, 0.0));
      var radius := flowerType.petalEdge;
      scene.Place(petalInstance, OnRing(radius, angle, 0.0));
    }

    /** _arrange_petals: petalCount copies of the template, the i-th turned by
        -i * 360 / petalCount degrees and placed on the ring at that angle, in
        creation order; the template is then deleted and the selection cleared.
        A count of 0 divides by zero before any command; a negative count makes
        no copies. */
    method ArrangePetals(scene: Scene, petal: Handle, petalCount: int, layer: string)
      returns (r: Result<seq<Handle>>)
      requires scene.Valid() && petal in scene.live
      modifies scene
      ensures scene.Valid()
      ensures petalCount == 0 ==>
        r == Err(ZeroDivisionError) && scene.log == old(scene.log)
        && scene.live == old(scene.live) && scene.next == old(scene.next)
      ensures petalCount != 0 ==>
        var n := if petalCount < 0 then 0 else petalCount;
        && r == Ok(Handles(old(scene.next), n))
        && scene.next == old(scene.next) + n
        && scene.live == old(scene.live) - {petal} + Elems(Handles(old(scene.next), n))
        && scene.log == old(scene.log)
                        + RingLog(TurnThenPlace, petal, old(scene.next), petalCount, flowerType.petalEdge, n)
                        + [Delete(petal), ClearSelection]
      ensures r.Ok? ==> petal !in r.value && petal !in scene.live
    {
      if petalCount == 0 {
        return Err(ZeroDivisionError);
      }
      var flowerPetals: seq<Handle> := [];
      var rotationIncrement := 360.0 / (petalCount as real);
      ghost var first := scene.next;
      var i := 0;
      while i < petalCount
        invariant 0 <= i && (i <= petalCount || i == 0)
        invariant flowerPetals == Handles(first, i)
        invariant scene.Valid() && scene.next == first + i
        invariant scene.live == old(scene.live) + Elems(Handles(first, i))
        invariant scene.log == old(scene.log) + RingLog(TurnThenPlace, petal, first, petalCount, flowerType.petalEdge, i)
      {
        var angle := (i as real) * rotationIncrement;
        AngleOfStep(i, petalCount, rotationIncrement, angle);
        ghost var before, liveBefore := scene.log, scene.live;
        var petalInstance := PlaceCopy(scene, petal, angle);
        LiveGrows(old(scene.live), first, i, liveBefore, petalInstance, scene.live);
        RingLogGrows(TurnThenPlace, petal, first, petalCount, flowerType.petalEdge, i, old(scene.log), before, scene.log);
        HandlesPush(first, i, flowerPetals, petalInstance);
        flowerPetals := flowerPetals + [petalInstance];
        i := i + 1;
      }
      HandlesAbove(first, i, petal);
      scene.Remove(petal);
      scene.SelectClear();
      return Ok(flowerPetals);
    }

    /** One pass of create_flower's layer loop: a sculpted template of its own
        and its ring of `count` copies, the template deleted afterwards. */
    method CreateLayer(scene: Scene, layerType: string, count: nat, cubeVertices: nat) returns (arranged: seq<Handle>)
      requires scene.Valid() && count > 0
      modifies scene
      ensures scene.Valid()
      ensures arranged == Handles(old(scene.next) + 1, count)
      ensures scene.next == old(scene.next) + 1 + count
      ensures scene.live == old(scene.live) + Elems(arranged)
      ensures scene.log == old(scene.log) + LayerLog(flowerType, cubeVertices, old(scene.next), count)
    {
      var petalShape := CreatePetal(scene, layerType, cubeVertices);
      ghost var sculpted := scene.log;
      var arrangedLayer := ArrangePetals(scene, petalShape, count, layerType);
      LayerLogSplit(flowerType, cubeVertices, petalShape, count, old(scene.log), sculpted, scene.log);
      assert scene.live == old(scene.live) + {petalShape} - {petalShape} + Elems(arrangedLayer.value);
      assert old(scene.live) + {petalShape} - {petalShape} == old(scene.live);
      arranged := arrangedLayer.value;
    }

    /** create_flower's loop over the base, mid and inner layers: each layer
        gets a template of its own and a ring of copies, appended to `allPetals`. */
    method CreateLayers(scene: Scene, petalCounts: seq<nat>, cubeVertices: nat)
      requires scene.Valid() && |petalCounts| == 3 && AllPositive(petalCounts)
      modifies this, scene
      ensures scene.Valid()
      ensures allPetals == old(allPetals) + LayersPetals(old(scene.next), petalCounts, |petalCounts|)
      ensures scene.next == old(scene.next) + Span(petalCounts, |petalCounts|)
      ensures scene.live == old(scene.live) + Elems(LayersPetals(old(scene.next), petalCounts, |petalCounts|))
      ensures scene.log == old(scene.log) + LayersLog(flowerType, cubeVertices, old(scene.next), petalCounts, |petalCounts|)
    {
      var layerTypes := LayerNames;
      var k := 0;
      while k < |petalCounts|
        invariant 0 <= k <= |petalCounts|
        invariant scene.Valid() && scene.next == old(scene.next) + Span(petalCounts, k)
        invariant allPetals == old(allPetals) + LayersPetals(old(scene.next), petalCounts, k)
        invariant scene.live == old(scene.live) + Elems(LayersPetals(old(scene.next), petalCounts, k))
        invariant scene.log == old(scene.log) + LayersLog(flowerType, cubeVertices, old(scene.next), petalCounts, k)
      {
        ghost var liveK, logK, petalsK := scene.live, scene.log, allPetals;
        var arrangedLayer := CreateLayer(scene, layerTypes[k], petalCounts[k], cubeVertices);
        LayersLogGrow(flowerType, cubeVertices, old(scene.next), petalCounts, k, old(scene.log), logK, scene.log);
        allPetals := allPetals + arrangedLayer;
        LayersPetalsGrow(old(scene.next), petalCounts, k, old(allPetals), petalsK, allPetals);
        LayersLiveGrow(old(scene.next), petalCounts, k, old(scene.live), liveK, scene.live);
        k := k + 1;
      }
    }

    /** create_flower: resolves the layer set (ValueError, before any command,
        for an unsupported base count), builds the disk, then sculpts and
        arranges the base, mid and inner layers in that order, extending
        `allPetals` by each layer's copies. Returns the disk and `allPetals`. */
    method CreateFlower(scene: Scene, cubeVertices: nat) returns (r: Result<(Handle, seq<Handle>)>)
      requires scene.Valid()
      modifies this, scene
      ensures scene.Valid()
      ensures FindLayerSet(basePetalCount).Err? ==>
        r == Err(ValueError) && scene.log == old(scene.log) && scene.live == old(scene.live)
        && scene.next == old(scene.next) && allPetals == old(allPetals)
      ensures FindLayerSet(basePetalCount).Ok? ==>
        var counts := Counts(FindLayerSet(basePetalCount).value);
        var disk := old(scene.next);
        && r == Ok((disk, allPetals))
        && allPetals == old(allPetals) + LayersPetals(disk + 1, counts, |counts|)
        && scene.next == disk + 1 + Span(counts, |counts|)
        && scene.live == (old(scene.live) + {disk}) + Elems(LayersPetals(disk + 1, counts, |counts|))
        && scene.log == old(scene.log) + DiskLog(disk, flowerType, basePetalCount)
                        + LayersLog(flowerType, cubeVertices, disk + 1, counts, |counts|)
    {
      var found := FindLayerSet(basePetalCount);
      if found.Err? {
        return Err(found.error);
      }
      var flowerDisk: Handle := CreateDisk(scene, basePetalCount);
      var petalCounts := Counts(found.value);
      CreateLayers(scene, petalCounts, cubeVertices);
      var created: (Handle, seq<Handle>) := (flowerDisk, allPetals);
      return Ok(created);
    }
  }
}
