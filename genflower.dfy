/**
 genflower.py: one function that builds a disk, sculpts a single petal
 template, arranges copies of it laid flat in a ring around the disk and
 deletes the template. The petal count is both the disk's facet count and
 the number of copies.
 */
module GenFlower {
  import opened MayaScene
  import opened RingLayout
  import opened VertexRange

  /** The default petal count of create_flower. */
  const DefaultPetalCount := 30

  /** The radius of the ring the copies are placed on. */
  const PetalRingRadius := 1.3

  /** How the copies are oriented: laid flat, placed, turned; never rescaled. */
  const Style := LayFlatPlaceTurn(false)

  /** The commands create_flower issues for a disk numbered `disk` and a
      positive petal count: disk, template (`disk + 1`) and its outline, a
      selection clear, the ring of copies `disk + 2`, ..., then the template's
      deletion. */
  function FlowerLog(disk: Handle, petalCount: int): seq<Command>
    requires petalCount > 0
  {
    [Cylinder(disk, 1.0, 0.1, petalCount), Cube(disk + 1, 0.8, 0.1, 0.2, 8, 1)]
    + PetalOutline(disk + 1)
    + [ClearSelection]
    + RingLog(Style, disk + 1, disk + 2, petalCount, PetalRingRadius, petalCount)
    + [Delete(disk + 1)]
  }

  /** A log that grew by the disk, the outlined template and a selection
      clear, then by the ring and the template's deletion, grew by FlowerLog. */
  lemma FlowerLogSplit(disk: Handle, petalCount: int, before: seq<Command>, cleared: seq<Command>, after: seq<Command>)
    requires petalCount > 0
    requires cleared == before + [Cylinder(disk, 1.0, 0.1, petalCount), Cube(disk + 1, 0.8, 0.1, 0.2, 8, 1)]
                               + PetalOutline(disk + 1) + [ClearSelection]
    requires after == cleared + RingLog(Style, disk + 1, disk + 2, petalCount, PetalRingRadius, petalCount)
                              + [Delete(disk + 1)]
    ensures after == before + FlowerLog(disk, petalCount)
  {
  }

  /** The flower's commands make the template exactly petalCount copies,
      the i-th numbered disk + 2 + i, place the i-th on the ring of radius
      1.3 at i * 360 / petalCount degrees, and never rescale anything. */
  lemma FlowerRing(disk: Handle, petalCount: int)
    requires petalCount > 0
    ensures |Filter(Duplicates, FlowerLog(disk, petalCount))| == petalCount
    ensures forall i :: 0 <= i < petalCount ==>
      Filter(Duplicates, FlowerLog(disk, petalCount))[i] == Duplicate(disk + 1, disk + 2 + i)
    ensures |Filter(Placements, FlowerLog(disk, petalCount))| == petalCount
    ensures forall i {:trigger Filter(Placements, FlowerLog(disk, petalCount))[i]} :: 0 <= i < petalCount ==>
      Filter(Placements, FlowerLog(disk, petalCount))[i]
        == MoveObject(disk + 2 + i, OnRing(PetalRingRadius, Angle(i, petalCount), 0.0))
    ensures Filter(Scalings, FlowerLog(disk, petalCount)) == []
  {
    FlowerFilter(Duplicates, disk, petalCount);
    FlowerFilter(Placements, disk, petalCount);
    FlowerFilter(Scalings, disk, petalCount);
    RingDuplicates(Style, disk + 1, disk + 2, petalCount, PetalRingRadius, petalCount);
    RingPlacements(Style, disk + 1, disk + 2, petalCount, PetalRingRadius, petalCount);
    RingScalings(Style, disk + 1, disk + 2, petalCount, PetalRingRadius, petalCount);
  }

  /** Around the ring, the flower issues no duplicate, placement or scaling:
      filtering its commands keeps what filtering the ring keeps. */
  lemma FlowerFilter(kind: Kind, disk: Handle, petalCount: int)
    requires petalCount > 0
    ensures Filter(kind, FlowerLog(disk, petalCount))
            == Filter(kind, RingLog(Style, disk + 1, disk + 2, petalCount, PetalRingRadius, petalCount))
  {
    var outline := PetalOutline(disk + 1);
    var setup := [Cylinder(disk, 1.0, 0.1, petalCount), Cube(disk + 1, 0.8, 0.1, 0.2, 8, 1)]
                 + outline + [ClearSelection];
    var ring := RingLog(Style, disk + 1, disk + 2, petalCount, PetalRingRadius, petalCount);
    var tail := [Delete(disk + 1)];
    assert FlowerLog(disk, petalCount) == setup + ring + tail;
    OutlineMovesVertices(disk + 1);
    forall j | 0 <= j < |setup|
      ensures !OfKind(kind, setup[j])
    {
      if 2 <= j < 14 {
        assert setup[j] == outline[j - 2];
      }
    }
    FilterFramed(kind, setup, ring, tail);
  }

  /** create_flower's default petal count passes its check and makes a ring
      of 30 copies. */
  lemma DefaultRing(disk: Handle)
    ensures DefaultPetalCount > 0
    ensures |Filter(Duplicates, FlowerLog(disk, DefaultPetalCount))| == 30
    ensures |Filter(Placements, FlowerLog(disk, DefaultPetalCount))| == 30
  {
    FlowerRing(disk, DefaultPetalCount);
  }

  /** One iteration of create_flower's ring: a copy of the template laid
      flat, placed on the ring at `angle` and turned by minus `angle`. */
  method PlaceCopy(scene: Scene, petal: Handle, angle: real) returns (petalInstance: Handle)
    requires scene.Valid()
    modifies scene
    ensures scene.Valid() && petalInstance == old(scene.next) && scene.next == petalInstance + 1
    ensures scene.live == old(scene.live) + {petalInstance}
    ensures scene.log == old(scene.log) + Steps(Style, petal, petalInstance, angle, PetalRingRadius)
  {
    petalInstance := scene.Copy(petal);
    scene.Turn(petalInstance, Vec(90.0, 0.0, 0.0));
    var radius := PetalRingRadius;
    scene.Place(petalInstance, OnRing(radius, angle, 0.0));
    scene.Turn(petalInstance, Vec(0.0, -angle, 0.0));
    assert Steps(Style, petal, petalInstance, angle, radius)
           == [Duplicate(petal, petalInstance), Rotate(petalInstance, Vec(90.0, 0.0, 0.0)),
               MoveObject(petalInstance, OnRing(radius, angle, 0.0)), Rotate(petalInstance, Vec(0.0, -angle, 0.0))];
  }

  /** create_flower's ring loop: petalCount copies of the template, the i-th
      at i * 360 / petalCount degrees, numbered from the next fresh handle. */
  method ArrangeRing(scene: Scene, petal: Handle, petalCount: int) returns (flowerPetals: seq<Handle>)
    requires scene.Valid() && petalCount > 0
    modifies scene
    ensures scene.Valid()
    ensures flowerPetals == Handles(old(scene.next), petalCount)
    ensures scene.next == old(scene.next) + petalCount
    ensures scene.live == old(scene.live) + Elems(flowerPetals)
    ensures scene.log == old(scene.log) + RingLog(Style, petal, old(scene.next), petalCount, PetalRingRadius, petalCount)
  {
    flowerPetals := [];
    var rotationIncrement := 360.0 / (petalCount as real);
    ghost var first := scene.next;
    var i := 0;
    while i < petalCount
      invariant 0 <= i <= petalCount
      invariant flowerPetals == Handles(first, i)
      invariant scene.Valid() && scene.next == first + i
      invariant scene.live == old(scene.live) + Elems(Handles(first, i))
      invariant scene.log == old(scene.log) + RingLog(Style, petal, first, petalCount, PetalRingRadius, i)
    {
      var angle := (i as real) * rotationIncrement;
      AngleOfStep(i, petalCount, rotationIncrement, angle);
      ghost var before, liveBefore := scene.log, scene.live;
      var petalInstance := PlaceCopy(scene, petal, angle);
      LiveGrows(old(scene.live), first, i, liveBefore, petalInstance, scene.live);
      RingLogGrows(Style, petal, first, petalCount, PetalRingRadius, i, old(scene.log), before, scene.log);
      HandlesPush(first, i, flowerPetals, petalInstance);
      flowerPetals := flowerPetals + [petalInstance];
      i := i + 1;
    }
  }

  /** create_flower: ValueError, before any command, unless the petal count is
      positive. Otherwise the disk with one facet per petal, the template, and
      one copy per petal at i * 360 / petalCount degrees. Returns the disk and
      the copies in creation order. */
  method CreateFlower(scene: Scene, petalCount: int) returns (r: Result<(Handle, seq<Handle>)>)
    requires scene.Valid()
    modifies scene
    ensures scene.Valid()
    ensures petalCount <= 0 ==>
      r == Err(ValueError) && scene.log == old(scene.log) && scene.live == old(scene.live)
      && scene.next == old(scene.next)
    ensures petalCount > 0 ==>
      var disk := old(scene.next);
      && r == Ok((disk, Handles(disk + 2, petalCount)))
      && scene.next == disk + 2 + petalCount
      && scene.live == old(scene.live) + {disk} + Elems(Handles(disk + 2, petalCount))
      && disk + 1 !in scene.live && disk + 1 !in r.value.1
      && scene.log == old(scene.log) + FlowerLog(disk, petalCount)
  {
    if petalCount <= 0 {
      return Err(ValueError);
    }
    var flowerDisk := scene.PolyCylinder(1.0, 0.1, petalCount);
    var petal := scene.PolyCube(0.8, 0.1, 0.2, 8, 1);
    OutlinePetal(scene, petal);
    scene.SelectClear();
    ghost var cleared := scene.log;
    assert cleared == old(scene.log) + [Cylinder(flowerDisk, 1.0, 0.1, petalCount), Cube(petal, 0.8, 0.1, 0.2, 8, 1)]
                      + PetalOutline(petal) + [ClearSelection];
    ghost var first := scene.next;
    assert first == flowerDisk + 2;
    var flowerPetals := ArrangeRing(scene, petal, petalCount);
    HandlesAbove(first, petalCount, petal);
    assert petal !in old(scene.live) + {flowerDisk};
    ghost var copies := Elems(Handles(first, petalCount));
    scene.Remove(petal);
    FlowerLogSplit(flowerDisk, petalCount, old(scene.log), cleared, scene.log);
    RemoveTemplate(old(scene.live) + {flowerDisk}, petal, copies);
    var created: (Handle, seq<Handle>) := (flowerDisk, flowerPetals);
    return Ok(created);
  }
}
