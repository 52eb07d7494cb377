/**
 flowerforge.py: module-level functions that build a disk and, for each of
 the base, mid and inner layers, a sculpted petal template laid flat in a
 ring of copies. The copies of each layer are returned as a list of their
 own; the mid and inner layers also rescale their template once per copy.
 */
module FlowerForge {
  import opened MayaScene
  import opened FlowerTables
  import opened RingLayout
  import opened VertexRange
  import opened FlowerLayers

  /** The default base petal count of create_flower. */
  const DefaultBasePetalCount := 34

  /** The layers whose template the scale-and-tilt hook rescales. */
  predicate Rescaled(layer: string)
  {
    layer == "inner" || layer == "mid"
  }

  /** How a ring of `layer` orients its copies. */
  function LayerStyle(layer: string): StepStyle
  {
    LayFlatPlaceTurn(Rescaled(layer))
  }

  /** The commands of one layer: template `t` is created and outlined,
      `count` copies numbered t + 1, ..., t + count are arranged, `t` is
      deleted and the selection cleared. */
  function LayerLog(ft: FlowerType, layer: string, t: Handle, count: nat): seq<Command>
    requires count > 0
  {
    [Cube(t, ft.width, ft.height, ft.depth, ft.subdivX, ft.subdivY)]
    + PetalOutline(t)
    + RingLog(LayerStyle(layer), t, t + 1, count, ft.petalEdge, count)
    + [Delete(t), ClearSelection]
  }

  /** Around its ring, a layer issues no duplicate, placement or scaling:
      filtering its commands keeps what filtering the ring keeps. */
  lemma LayerFilter(kind: Kind, ft: FlowerType, layer: string, t: Handle, count: nat)
    requires count > 0
    ensures Filter(kind, LayerLog(ft, layer, t, count))
            == Filter(kind, RingLog(LayerStyle(layer), t, t + 1, count, ft.petalEdge, count))
  {
    var outline := PetalOutline(t);
    var setup := [Cube(t, ft.width, ft.height, ft.depth, ft.subdivX, ft.subdivY)] + outline;
    var ring := RingLog(LayerStyle(layer), t, t + 1, count, ft.petalEdge, count);
    var tail := [Delete(t), ClearSelection];
    assert LayerLog(ft, layer, t, count) == setup + ring + tail;
    OutlineMovesVertices(t);
    forall j | 0 <= j < |setup|
      ensures !OfKind(kind, setup[j])
    {
      if 1 <= j {
        assert setup[j] == outline[j - 1];
      }
    }
    FilterFramed(kind, setup, ring, tail);
  }

  /** A layer makes its template exactly `count` copies, numbered t + 1, ...,
      t + count, and rescales the template once per copy for the mid and
      inner layers and never for any other. */
  lemma LayerRing(ft: FlowerType, layer: string, t: Handle, count: nat)
    requires count > 0
    ensures |Filter(Duplicates, LayerLog(ft, layer, t, count))| == count
    ensures forall i :: 0 <= i < count ==> Filter(Duplicates, LayerLog(ft, layer, t, count))[i] == Duplicate(t, t + 1 + i)
    ensures |Filter(Scalings, LayerLog(ft, layer, t, count))| == if layer == "mid" || layer == "inner" then count else 0
    ensures forall i :: 0 <= i < |Filter(Scalings, LayerLog(ft, layer, t, count))| ==>
      Filter(Scalings, LayerLog(ft, layer, t, count))[i] == Scale(t, TemplateScale)
  {
    LayerFilter(Duplicates, ft, layer, t, count);
    LayerFilter(Scalings, ft, layer, t, count);
    RingDuplicates(LayerStyle(layer), t, t + 1, count, ft.petalEdge, count);
    RingScalings(LayerStyle(layer), t, t + 1, count, ft.petalEdge, count);
  }

  /** The commands of the first k layers, the first template being `first`. */
  function LayersLog(ft: FlowerType, first: Handle, counts: seq<nat>, k: nat): seq<Command>
    requires AllPositive(counts) && k <= |counts| <= |LayerNames|
  {
    if k == 0 then []
    else LayersLog(ft, first, counts, k - 1)
         + LayerLog(ft, LayerNames[k - 1], first + Span(counts, k - 1), counts[k - 1])
  }

  /** A log that grew by an outlined template and then by its ring grew by one layer. */
  lemma LayerLogSplit(ft: FlowerType, layer: string, t: Handle, count: nat,
                      before: seq<Command>, sculpted: seq<Command>, after: seq<Command>)
    requires count > 0
    requires sculpted == before + [Cube(t, ft.width, ft.height, ft.depth, ft.subdivX, ft.subdivY)] + PetalOutline(t)
    requires after == sculpted + RingLog(LayerStyle(layer), t, t + 1, count, ft.petalEdge, count)
                               + [Delete(t), ClearSelection]
    ensures after == before + LayerLog(ft, layer, t, count)
  {
  }

  /** The first k + 1 layers are the first k followed by layer k. */
  lemma LayersLogUnfold(ft: FlowerType, first: Handle, counts: seq<nat>, k: nat)
    requires AllPositive(counts) && k < |counts| <= |LayerNames|
    ensures LayersLog(ft, first, counts, k + 1)
            == LayersLog(ft, first, counts, k) + LayerLog(ft, LayerNames[k], first + Span(counts, k), counts[k])
  {
  }

  /** A log that held the first k layers and grew by layer k holds the first k + 1. */
  lemma LayersLogGrow(ft: FlowerType, first: Handle, counts: seq<nat>, k: nat,
                      before: seq<Command>, current: seq<Command>, after: seq<Command>)
    requires AllPositive(counts) && k < |counts| <= |LayerNames|
    requires current == before + LayersLog(ft, first, counts, k)
    requires after == current + LayerLog(ft, LayerNames[k], first + Span(counts, k), counts[k])
    ensures after == before + LayersLog(ft, first, counts, k + 1)
  {
    LayersLogUnfold(ft, first, counts, k);
    AppendAssoc(before, LayersLog(ft, first, counts, k), LayerLog(ft, LayerNames[k], first + Span(counts, k), counts[k]));
  }

  /** create_flower's default base count resolves the layer set (34, 21, 13):
      three lists of 34, 21 and 13 copies. */
  lemma DefaultLayers(first: Handle)
    ensures FindLayerSet(DefaultBasePetalCount) == Ok(LayerSet(34, 21, 13))
    ensures |LayerGroups(first, Counts(LayerSet(34, 21, 13)), 3)| == 3
    ensures forall j :: 0 <= j < 3 ==>
      |LayerGroups(first, Counts(LayerSet(34, 21, 13)), 3)[j]| == Counts(LayerSet(34, 21, 13))[j]
  {
    GroupsFlatten(first, Counts(LayerSet(34, 21, 13)), 3);
  }

  /** create_disk: a cylinder with one radial facet per base petal, left
      where the host creates it. */
  method CreateDisk(scene: Scene, ft: FlowerType, petalCount: int) returns (disk: Handle)
    requires scene.Valid()
    modifies scene
    ensures scene.Valid() && disk == old(scene.next) && scene.next == disk + 1
    ensures scene.live == old(scene.live) + {disk}
    ensures scene.log == old(scene.log) + [Cylinder(disk, ft.radius, ft.height, petalCount)]
  {
    disk := scene.PolyCylinder(ft.radius, ft.height, petalCount);
  }

  /** create_petal: a box of the flower type's size whose vertices 12..17 and
      21..26 are moved into a petal outline; the layer does not change it. */
  method CreatePetal(scene: Scene, layerType: string, ft: FlowerType) returns (petal: Handle)
    requires scene.Valid()
    modifies scene
    ensures scene.Valid() && petal == old(scene.next) && scene.next == petal + 1
    ensures scene.live == old(scene.live) + {petal}
    ensures scene.log == old(scene.log)
            + [Cube(petal, ft.width, ft.height, ft.depth, ft.subdivX, ft.subdivY)] + PetalOutline(petal)
  {
    petal := scene.PolyCube(ft.width, ft.height, ft.depth, ft.subdivX, ft.subdivY);
    OutlinePetal(scene, petal);
  }

  /** transform_petal: scales the template by 0.7, 0.5, 0.8. */
  method TransformPetal(scene: Scene, petal: Handle)
    requires scene.Valid()
    modifies scene
    ensures scene.Valid() && scene.next == old(scene.next) && scene.live == old(scene.live)
    ensures scene.log == old(scene.log) + [Scale(petal, TemplateScale)]
  {
    scene.Resize(petal, TemplateScale);
  }

  /** One iteration of arrange_petals: a copy of the template laid flat, the
      template rescaled for the mid and inner layers, the copy placed on the
      ring at `angle` and turned by minus `angle`. */
  method PlaceCopy(scene: Scene, petal: Handle, angle: real, ft: FlowerType, layer: string) returns (petalInstance: Handle)
    requires scene.Valid()
    modifies scene
    ensures scene.Valid() && petalInstance == old(scene.next) && scene.next == petalInstance + 1
    ensures scene.live == old(scene.live) + {petalInstance}
    ensures scene.log == old(scene.log) + Steps(LayerStyle(layer), petal, petalInstance, angle, ft.petalEdge)
  {
    petalInstance := scene.Copy(petal);
    scene.Turn(petalInstance, Vec(90.0, 0.0, 0.0));
    var radius := ft.petalEdge;
    ghost var flat := scene.log;
    if layer == "inner" {
      TransformPetal(scene, petal);
    } else if layer == "mid" {
      TransformPetal(scene, petal);
    }
    ghost var rescale: seq<Command> := if Rescaled(layer) then [Scale(petal, TemplateScale)] else [];
    assert scene.log == flat + rescale;
    scene.Place(petalInstance, OnRing(radius, angle, 0.0));
    scene.Turn(petalInstance, Vec(0.0, -angle, 0.0));
    assert Steps(LayerStyle(layer), petal, petalInstance, angle, radius)
           == [Duplicate(petal, petalInstance), Rotate(petalInstance, Vec(90.0, 0.0, 0.0))] + rescale
              + [MoveObject(petalInstance, OnRing(radius, angle, 0.0)), Rotate(petalInstance, Vec(0.0, -angle, 0.0))];
  }

  /** arrange_petals' loop: one placed copy per iteration, the i-th at
      i * 360 / petalCount degrees; no iteration for a negative count. */
  method PlaceCopies(scene: Scene, petal: Handle, petalCount: int, ft: FlowerType, layer: string)
    returns (flowerPetals: seq<Handle>)
    requires scene.Valid() && petalCount != 0
    modifies scene
    ensures scene.Valid()
    ensures var n := if petalCount < 0 then 0 else petalCount;
      && flowerPetals == Handles(old(scene.next), n)
      && scene.next == old(scene.next) + n
      && scene.live == old(scene.live) + Elems(flowerPetals)
      && scene.log == old(scene.log) + RingLog(LayerStyle(layer), petal, old(scene.next), petalCount, ft.petalEdge, n)
  {
    flowerPetals := [];
    var rotationIncrement := 360.0 / (petalCount as real);
    ghost var first := scene.next;
    ghost var n := if petalCount < 0 then 0 else petalCount;
    ghost var style := LayerStyle(layer);
    var i := 0;
    while i < petalCount
      invariant 0 <= i <= n
      invariant flowerPetals == Handles(first, i)
      invariant scene.Valid() && scene.next == first + i
      invariant scene.live == old(scene.live) + Elems(Handles(first, i))
      invariant scene.log == old(scene.log) + RingLog(style, petal, first, petalCount, ft.petalEdge, i)
    {
      var angle := (i as real) * rotationIncrement;
      AngleOfStep(i, petalCount, rotationIncrement, angle);
      ghost var before, liveBefore := scene.log, scene.live;
      var petalInstance := PlaceCopy(scene, petal, angle, ft, layer);
      LiveGrows(old(scene.live), first, i, liveBefore, petalInstance, scene.live);
      RingLogGrows(style, petal, first, petalCount, ft.petalEdge, i, old(scene.log), before, scene.log);
      HandlesPush(first, i, flowerPetals, petalInstance);
      flowerPetals := flowerPetals + [petalInstance];
      i := i + 1;
    }
  }

  /** arrange_petals: petalCount copies of the template, the i-th laid flat,
      placed on the ring at i * 360 / petalCount degrees and turned by minus
      that angle; for the mid and inner layers the template is rescaled
      before each placement. The template is then deleted and the selection
      cleared. A count of 0 divides by zero before any command; a negative
      count makes no copies. */
  method ArrangePetals(scene: Scene, petal: Handle, petalCount: int, ft: FlowerType, layer: string)
    returns (r: Result<seq<Handle>>)
    requires scene.Valid() && petal in scene.live
    modifies scene
    ensures scene.Valid()
    ensures petalCount == 0 ==>
      r == Err(ZeroDivisionError) && scene.log == old(scene.log)
      && scene.live == old(scene.live) && scene.next == old(scene.next)
    ensures petalCount != 0 ==>
      var n := if petalCount < 0 then 0 else petalCount;
      && r == Ok(Handles(old(scene.next), n))
      && scene.next == old(scene.next) + n
      && scene.live == old(scene.live) - {petal} + Elems(Handles(old(scene.next), n))
      && scene.log == old(scene.log)
                      + RingLog(LayerStyle(layer), petal, old(scene.next), petalCount, ft.petalEdge, n)
                      + [Delete(petal), ClearSelection]
    ensures r.Ok? ==> petal !in r.value && petal !in scene.live
  {
    if petalCount == 0 {
      return Err(ZeroDivisionError);
    }
    ghost var first := scene.next;
    var flowerPetals := PlaceCopies(scene, petal, petalCount, ft, layer);
    HandlesAbove(first, if petalCount < 0 then 0 else petalCount, petal);
    scene.Remove(petal);
    scene.SelectClear();
    return Ok(flowerPetals);
  }

  /** One pass of create_flower's layer loop: a template of its own and its
      ring of `count` copies, the template deleted afterwards. */
  method CreateLayer(scene: Scene, layerType: string, count: nat, ft: FlowerType) returns (arranged: seq<Handle>)
    requires scene.Valid() && count > 0
    modifies scene
    ensures scene.Valid()
    ensures arranged == Handles(old(scene.next) + 1, count)
    ensures scene.next == old(scene.next) + 1 + count
    ensures scene.live == old(scene.live) + Elems(arranged)
    ensures scene.log == old(scene.log) + LayerLog(ft, layerType, old(scene.next), count)
  {
    var petalShape := CreatePetal(scene, layerType, ft);
    ghost var sculpted := scene.log;
    var arrangedLayer := ArrangePetals(scene, petalShape, count, ft, layerType);
    LayerLogSplit(ft, layerType, petalShape, count, old(scene.log), sculpted, scene.log);
    assert scene.live == old(scene.live) + {petalShape} - {petalShape} + Elems(arrangedLayer.value);
    assert old(scene.live) + {petalShape} - {petalShape} == old(scene.live);
    arranged := arrangedLayer.value;
  }

  /** create_flower's loop over the base, mid and inner layers, each layer's
      copies appended to `allPetals` as one list. */
  method CreateLayers(scene: Scene, ft: FlowerType, petalCounts: seq<nat>) returns (allPetals: seq<seq<Handle>>)
    requires scene.Valid() && |petalCounts| == 3 && AllPositive(petalCounts)
    modifies scene
    ensures scene.Valid()
    ensures allPetals == LayerGroups(old(scene.next), petalCounts, |petalCounts|)
    ensures scene.next == old(scene.next) + Span(petalCounts, |petalCounts|)
    ensures scene.live == old(scene.live) + Elems(LayersPetals(old(scene.next), petalCounts, |petalCounts|))
    ensures scene.log == old(scene.log) + LayersLog(ft, old(scene.next), petalCounts, |petalCounts|)
  {
    allPetals := [];
    var layerTypes := LayerNames;
    var k := 0;
    while k < |petalCounts|
      invariant 0 <= k <= |petalCounts|
      invariant scene.Valid() && scene.next == old(scene.next) + Span(petalCounts, k)
      invariant allPetals == LayerGroups(old(scene.next), petalCounts, k)
      invariant scene.live == old(scene.live) + Elems(LayersPetals(old(scene.next), petalCounts, k))
      invariant scene.log == old(scene.log) + LayersLog(ft, old(scene.next), petalCounts, k)
    {
      ghost var liveK, logK, groupsK := scene.live, scene.log, allPetals;
      var arrangedLayer := CreateLayer(scene, layerTypes[k], petalCounts[k], ft);
      LayersLogGrow(ft, old(scene.next), petalCounts, k, old(scene.log), logK, scene.log);
      allPetals := allPetals + [arrangedLayer];
      LayerGroupsGrow(old(scene.next), petalCounts, k, groupsK, allPetals);
      LayersLiveGrow(old(scene.next), petalCounts, k, old(scene.live), liveK, scene.live);
      k := k + 1;
    }
  }

  /** The disk and the three layers of a flower whose layer set is resolved. */
  method BuildFlower(scene: Scene, ft: FlowerType, basePetalCount: int, layers: LayerSet)
    returns (flowerDisk: Handle, allPetals: seq<seq<Handle>>)
    requires scene.Valid() && 0 < layers.inner && 0 < layers.mid && 0 < layers.base
    modifies scene
    ensures scene.Valid() && flowerDisk == old(scene.next)
    ensures allPetals == LayerGroups(flowerDisk + 1, Counts(layers), |Counts(layers)|)
    ensures scene.next == flowerDisk + 1 + Span(Counts(layers), |Counts(layers)|)
    ensures scene.live == (old(scene.live) + {flowerDisk}) + Elems(LayersPetals(flowerDisk + 1, Counts(layers), |Counts(layers)|))
    ensures scene.log == old(scene.log) + [Cylinder(flowerDisk, ft.radius, ft.height, basePetalCount)]
                         + LayersLog(ft, flowerDisk + 1, Counts(layers), |Counts(layers)|)
  {
    flowerDisk := CreateDisk(scene, ft, basePetalCount);
    allPetals := CreateLayers(scene, ft, Counts(layers));
  }

  /** create_flower: resolves the layer set (ValueError, before any command,
      for an unsupported base count), builds the disk, then the base, mid and
      inner layers in that order. Returns the disk and one list of copies per
      layer. */
  method CreateFlower(scene: Scene, ft: FlowerType, basePetalCount: int)
    returns (r: Result<(Handle, seq<seq<Handle>>)>)
    requires scene.Valid()
    modifies scene
    ensures scene.Valid()
    ensures FindLayerSet(basePetalCount).Err? ==>
      r == Err(ValueError) && scene.log == old(scene.log) && scene.live == old(scene.live)
      && scene.next == old(scene.next)
    ensures FindLayerSet(basePetalCount).Ok? ==>
      var counts := Counts(FindLayerSet(basePetalCount).value);
      var disk := old(scene.next);
      && r == Ok((disk, LayerGroups(disk + 1, counts, |counts|)))
      && scene.next == disk + 1 + Span(counts, |counts|)
      && scene.live == (old(scene.live) + {disk}) + Elems(LayersPetals(disk + 1, counts, |counts|))
      && scene.log == old(scene.log) + [Cylinder(disk, ft.radius, ft.height, basePetalCount)]
                      + LayersLog(ft, disk + 1, counts, |counts|)
  {
    var found := FindLayerSet(basePetalCount);
    if found.Err? {
      return Err(found.error);
    }
    var flowerDisk, allPetals := BuildFlower(scene, ft, basePetalCount, found.value);
    var created: (Handle, seq<seq<Handle>>) := (flowerDisk, allPetals);
    return Ok(created);
  }
}
