# Flower scripts: the command-log model

Three Maya scripts build a stylised flower. Each builds a disk, then sculpts
a box into a petal template, arranges copies of the template in a ring
around the disk, and deletes the template:

- `bustersflowers.py` is a `Flower` class that builds three layers (base,
  mid and inner) and accumulates every copy in its `all_petals` field;
- `flowerforge.py` is the same flow as module-level functions, and returns
  one list of copies per layer;
- `genflower.py` is a single function that builds a single ring.

The model reduces the host application to what the scripts can observe
(module `MayaScene`). Every call into the host's command API that creates,
changes, selects or deletes an object is appended to a log of `Command`
values; the one query, busters' polyEvaluate of a template's vertex count,
is not logged but is a parameter. The scene graph is the set of live object
handles. Every created or duplicated object gets the next fresh handle. The
scripts' own bookkeeping is then modelled on top of that log:

- the layer-set table and its first-match lookup (`FlowerTables`);
- the vertex partition and sculpting plans. The busters script uses two
  index halves (`BustersFlowers`); the other two move the fixed inclusive
  ranges 12..17 and 21..26 (`VertexRange`);
- the ring arithmetic and the commands of each arranging loop
  (`RingLayout`);
- the numbering of layers and their copies (`FlowerLayers`);
- the three orchestrations (`BustersFlowers`, `FlowerForge`, `GenFlower`).

The scripts' `for` loops that issue commands or collect copies are `while`
loops, each proved against a function of what its first k iterations did.
Those functions are `SculptPrefix` for bustersflowers' sculpting,
`RangePlan` for the inclusive-range sculpting, and `RingLog` for each
arranging loop. The layer loops are proved against `LayersLog`, the handles
of the copies against `LayersPetals`, and flowerforge's per-layer lists
against `LayerGroups`. The first-match loop of the layer-set lookup is the
recursive function `FirstWithBase`. What each script promises is then proved
about those functions: counts, order, angles, mirror symmetry, and the
template's deletion. Placement on the ring is the command
`MoveObject(h, OnRing(radius, angle, y))`, where the angle in degrees is an
exact rational. The scripts compute x = radius * cos(angle) and
z = radius * sin(angle) themselves and pass the numbers to the host; the
model leaves x and z uninterpreted as `OnRing`.

The three scripts differ in a few places, and each module follows its own
script:

- unlike bustersflowers, flowerforge's `create_disk` does not move the disk;
- flowerforge's `create_flower` returns one list of copies per layer, where
  bustersflowers returns one flat list;
- genflower clears the selection before its ring and never after it, where
  the other two clear it after each ring.

## Model

| member | source | states |
|---|---|---|
| FlowerTables.LayerSets | bustersflowers.py:5-8 | the seven supported layer sets; in each, 0 < inner <= mid <= base; the base counts strictly increase, so no two entries share a base |
| FlowerTables.LayerSetsAreFibonacci | flowerforge.py:5-8 | every petal count of every layer set is a Fibonacci number |
| FlowerTables.FirstWithBase | bustersflowers.py:83-88 | Ok exactly when some entry has the base count; the result is the first such entry and carries that base; otherwise ValueError |
| FlowerTables.PetalProfile | bustersflowers.py:10-14 | the offset table's shape: each offset reaches further along the petal than the one before, every offset bulges to the same side, and the tip lies on the axis, so it is its own mirror image |
| FlowerTables.FindLayerSet | bustersflowers.py:83-88 | resolves exactly the bases 3, 5, 8, 13, 21, 34 and 55, to a table entry with that base and 0 < inner <= mid <= base; ValueError for every other count. flowerforge's find_layer_set is the same lookup |
| FlowerLayers.ThreeLayersPetals | bustersflowers.py:56-64 | a three-layer flower has base + mid + inner copies, numbered layer after layer in ascending order, none of them a template |
| FlowerLayers.GroupsFlatten | flowerforge.py:50-58 | one list per layer, each as long as its layer's count, in the order base, mid, inner; concatenated, they are the flat petal list |
| MayaScene.HandlesAscend | bustersflowers.py:221-241 | the copies of a ring are distinct and listed in creation order |
| RingLayout.AngleIsExact | bustersflowers.py:218-222 | the angle of the i-th copy, one increment past the previous one, is exactly i * (360 / n) |
| RingLayout.AngleOfStep | bustersflowers.py:218-222 | the angle the loop computes, i times an increment computed once, is the i-th ring angle |
| RingLayout.AnglesAscend | bustersflowers.py:218-222 | the ring angles start at 0, strictly increase and stay below 360 |
| RingLayout.RingDuplicates | bustersflowers.py:221-223 | k iterations make exactly k duplicates of the template; the i-th is the fresh handle first + i |
| RingLayout.RingPlacements | bustersflowers.py:229-234 | k iterations place exactly k objects, in order; the i-th copy goes onto the ring of the given radius, at angle i * 360 / n and height 0 |
| RingLayout.RingScalings | flowerforge.py:181-184 | the template is scaled once per iteration when the layer asks for it and never otherwise; no copy is scaled |
| BustersFlowers.Flower.GetVertexRanges | bustersflowers.py:169-186 | two contiguous, disjoint ranges of sizes n/2 and n - n/2 whose union is 0..n-1 |
| BustersFlowers.Flower.MoveVertices | bustersflowers.py:143-167 | the log grows by exactly the sculpting plan of the template; nothing else changes |
| BustersFlowers.HalvesPlanCoversVertices | bustersflowers.py:154-167 | one move per vertex 0..n-1, in index order; left-half vertex i gets table entry i mod 6; right-half vertex n/2 + i gets the mirror of entry i mod 6 |
| BustersFlowers.HalvesMirror | bustersflowers.py:163-167 | the i-th right vertex gets the i-th left vertex's x and y, and the opposite z |
| BustersFlowers.Flower.CreateDisk | bustersflowers.py:90-113 | a cylinder with petalCount radial facets, moved to y = height + 0.08 |
| BustersFlowers.Flower.CreatePetal | bustersflowers.py:115-141 | a fresh box of the flower type's size, followed by its sculpting plan; the layer name changes nothing |
| BustersFlowers.Flower.PlaceCopy | bustersflowers.py:222-241 | one iteration: a fresh duplicate, turned by minus the angle about y, then moved onto the ring at the angle |
| BustersFlowers.Flower.ArrangePetals | bustersflowers.py:202-250 | ZeroDivisionError before any command for a count of 0. Otherwise the fresh handles in creation order, the ring's commands, then the template's deletion and a selection clear. The template is neither returned nor left live; a negative count makes no copies |
| BustersFlowers.LayerRing | bustersflowers.py:56-64 | a layer makes exactly count copies of its template, numbered right after it, and places the i-th at i * 360 / count degrees |
| BustersFlowers.Flower.CreateLayer | bustersflowers.py:56-64 | one layer: a fresh template, then its count copies numbered right after it; the template is gone afterwards |
| BustersFlowers.Flower.CreateLayers | bustersflowers.py:52-64 | the layers base, mid and inner in that order; `allPetals` is extended by each layer's copies |
| BustersFlowers.Flower.CreateFlower | bustersflowers.py:30-66 | ValueError before any command for an unsupported base. Otherwise the disk, then the three layers in the order base, mid, inner; `allPetals` grows by the layers' copies; returns the disk and `allPetals` |
| BustersFlowers.DefaultLayers | bustersflowers.py:25-27 | the default base count 21 resolves the layer set (21, 13, 8), and such a flower arranges 42 copies |
| BustersFlowers.Flower.constructor | bustersflowers.py:25-28 | the flower type and base count are kept; `allPetals` starts empty |
| VertexRange.RangePlanMoves | flowerforge.py:133-142 | k moves of the petal; move j goes to vertex first + j with table entry j, mirrored for side R |
| VertexRange.MoveVertices | flowerforge.py:123-142 | for side L or R, moves vertices first..last with table entry i - first, mirrored for R. A range longer than six raises IndexError after six moves; any other side issues nothing. genflower's move_vertices is the same code |
| VertexRange.MirrorSymmetry | flowerforge.py:135-142 | side R keeps the x and y of side L and negates z |
| VertexRange.PetalRanges | flowerforge.py:114-115 | 12..17 and 21..26 are disjoint ranges of six vertices each; each uses the whole table once, and vertex 21 + k mirrors vertex 12 + k |
| VertexRange.OutlineMovesVertices | flowerforge.py:114-115 | the outline is twelve vertex moves of the petal and nothing else |
| VertexRange.OutlinePetal | genflower.py:35-36 | the two move_vertices calls on the template issue exactly the outline, without error |
| FlowerForge.CreateDisk | flowerforge.py:84-95 | a cylinder with petalCount radial facets, left where the host creates it |
| FlowerForge.CreatePetal | flowerforge.py:98-120 | a fresh box of the flower type's size, followed by the outline of vertices 12..17 and 21..26 |
| FlowerForge.TransformPetal | flowerforge.py:145-157 | one scaling of the given object by 0.7, 0.5, 0.8 |
| FlowerForge.PlaceCopy | flowerforge.py:167-192 | one iteration: a fresh duplicate laid flat; the template rescaled for mid and inner only; the copy placed on the ring at the angle and turned by minus the angle |
| FlowerForge.PlaceCopies | flowerforge.py:160-192 | the loop: one iteration per copy, the i-th at i * 360 / petalCount degrees, with fresh handles in creation order |
| FlowerForge.ArrangePetals | flowerforge.py:160-200 | ZeroDivisionError before any command for a count of 0. Otherwise the fresh handles in creation order, the ring's commands, then the template's deletion and a selection clear. The template is neither returned nor left live |
| FlowerForge.LayerRing | flowerforge.py:181-184 | a layer makes exactly count copies of its template; it scales the template once per copy for mid and inner and never for base |
| FlowerForge.CreateLayer | flowerforge.py:50-56 | one layer: a fresh template, then its count copies numbered right after it; the template is gone afterwards |
| FlowerForge.CreateLayers | flowerforge.py:47-58 | the layers base, mid and inner in that order; each layer's copies form one list of their own |
| FlowerForge.BuildFlower | flowerforge.py:44-58 | the disk, then the three layers, for a layer set already resolved |
| FlowerForge.DefaultLayers | flowerforge.py:26 | the default base count 34 resolves the layer set (34, 21, 13); the flower returns three lists, one per layer, of 34, 21 and 13 copies |
| FlowerForge.CreateFlower | flowerforge.py:26-58 | ValueError before any command for an unsupported base. Otherwise the disk and the three layers in the order base, mid, inner; returns the disk and one list of copies per layer, in that order |
| GenFlower.PlaceCopy | genflower.py:44-59 | one iteration: a fresh duplicate laid flat, placed on the ring of radius 1.3 at the angle, and turned by minus the angle |
| GenFlower.ArrangeRing | genflower.py:40-59 | the loop: petalCount copies with fresh handles in creation order, the i-th at i * 360 / petalCount degrees |
| GenFlower.FlowerRing | genflower.py:41-59 | exactly petalCount duplicates of the template, in order; the i-th is placed on the ring of radius 1.3 at i * 360 / petalCount degrees; nothing is rescaled |
| GenFlower.DefaultRing | genflower.py:25 | the default count 30 passes the guard, and the ring makes and places exactly 30 copies |
| GenFlower.CreateFlower | genflower.py:25-64 | ValueError before any command unless petalCount > 0. Otherwise a disk with petalCount facets, the outlined template, a selection clear and the ring; the template is deleted and is not among the returned copies |

## Left out

- What the host does with a command is not modelled. This covers polyCube,
  polyCylinder, move, rotate, scale, duplicate, delete and select. Each is
  a log entry, plus a fresh handle where the host creates an object.
  Objects are numbered, not named.
- The cosine and sine of the ring placement are not modelled. The scripts
  evaluate them in Python floats; the model keeps the point as
  `OnRing(radius, angle, 0)`.
- The scripts compute the increment (360.0 / n in bustersflowers and
  flowerforge, 360 / n in genflower) and the angle i * increment in binary
  floating point. The model assumes Python 3, where genflower's `/` is true
  division, as the f-strings of the other two scripts imply; under Python 2
  genflower's angles would be multiples of 360 // n. The model uses exact
  rationals, so rounding of the angle is not captured.
- The accumulated geometric effect of the 0.7, 0.5, 0.8 scaling on the
  template, and so on later copies, is not modelled. Only the scaling
  command is recorded.
- The vertex count the busters script asks the host for (polyEvaluate) is
  the parameter `cubeVertices`. The script asks once per template, three
  times per flower; the model takes one `cubeVertices` for all three, since
  every template is the same box. Whether the box's vertex order matches the
  index halves or the ranges 12..17 and 21..26 is a host property.
- Printing and the module-level invocation at the end of the busters script
  are left out. So are the empty DAISY and ASTER presets.
- The SUNFLOWER presets, the default flower types, are left out. The model
  takes the flower type as a parameter, and no modelled call fills in the
  default, since the module-level invocation is left out. The presets'
  `subdiv-z` entry is never passed to the host by any script.
- BustersFlowers.Flower.CreateFlower: the script returns the `all_petals`
  field itself, so a later call also extends a list returned earlier. The
  model returns the field's value; sequences are values, so this aliasing
  is not captured.
- Errors the host itself could raise are left out. Only the exceptions the
  scripts raise or trigger are modelled: ValueError, ZeroDivisionError and
  IndexError.
- The per-iteration and per-layer methods are proof structure, not
  functions of the scripts. They are `PlaceCopy`, `PlaceCopies`,
  `ArrangeRing`, `CreateLayer`, `CreateLayers`, `BuildFlower` and
  `OutlinePetal`. Each is one loop body, one loop, or one step of
  create_flower or create_petal, in the order the scripts run them.
