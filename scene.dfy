/**
 The host 3D application's scene, reduced to what the flower scripts can
 observe of it: every command they issue is appended to a log, the scene graph
 is the set of live object handles, and every created or duplicated object gets
 a fresh handle. What the host does with a command (geometry, trigonometry,
 vertex order of its primitives) is not modelled.
 */
module MayaScene {

  /** A scene object; the host names objects with strings, the model numbers them. */
  type Handle = nat

  datatype Vec = Vec(x: real, y: real, z: real)

  /** A target position for a whole object. `OnRing(r, a, y)` stands for the point
      (r * cos a, y, r * sin a) with `a` in degrees; the scripts evaluate the
      cosine and sine themselves, and the model leaves that point uninterpreted. */
  datatype Point = At(pos: Vec) | OnRing(radius: real, angle: real, y: real)

  /** One call into the host's command API. */
  datatype Command =
    | Cylinder(obj: Handle, radius: real, height: real, subdivAxis: int)
    | Cube(obj: Handle, width: real, height: real, depth: real, subdivX: int, subdivY: int)
    | MoveVertex(obj: Handle, vertex: int, to: Vec)
    | MoveObject(obj: Handle, dest: Point)
    | Rotate(obj: Handle, angles: Vec)
    | Scale(obj: Handle, factors: Vec)
    | Duplicate(source: Handle, obj: Handle)
    | Delete(obj: Handle)
    | ClearSelection

  /** The Python exceptions the scripts raise themselves. */
  datatype Error = ValueError | ZeroDivisionError | IndexError

  datatype Result<T> = Ok(value: T) | Err(error: Error)

  /** Appending to a log is associative. */
  lemma AppendAssoc(a: seq<Command>, b: seq<Command>, c: seq<Command>)
    ensures (a + b) + c == a + (b + c)
  {
  }

  /** The consecutive handles first, first + 1, ..., first + n - 1. */
  function Handles(first: Handle, n: nat): (hs: seq<Handle>)
  {
    seq(n, i requires 0 <= i < n => first + i)
  }

  /** Consecutive handles are distinct and listed in creation order. */
  lemma HandlesAscend(first: Handle, n: nat)
    ensures forall i, j :: 0 <= i < j < n ==> Handles(first, n)[i] < Handles(first, n)[j]
  {
  }

  /** The consecutive handles grow one at a time at the end. */
  lemma HandlesGrow(first: Handle, n: nat)
    ensures Handles(first, n + 1) == Handles(first, n) + [first + n]
    ensures Elems(Handles(first, n + 1)) == Elems(Handles(first, n)) + {first + n}
  {
    assert Handles(first, n + 1) == Handles(first, n) + [first + n];
  }

  /** Appending the next handle to the first n consecutive handles. */
  lemma HandlesPush(first: Handle, n: nat, hs: seq<Handle>, h: Handle)
    requires hs == Handles(first, n) && h == first + n
    ensures hs + [h] == Handles(first, n + 1)
    ensures Elems(hs + [h]) == Elems(hs) + {h}
  {
    HandlesGrow(first, n);
  }

  /** A scene graph that gained the first n consecutive handles and then the
      next one gained the first n + 1. */
  lemma LiveGrows(before: set<Handle>, first: Handle, n: nat, current: set<Handle>, h: Handle, after: set<Handle>)
    requires current == before + Elems(Handles(first, n)) && h == first + n && after == current + {h}
    ensures after == before + Elems(Handles(first, n + 1))
  {
    HandlesGrow(first, n);
  }

  /** A handle below `first` is not among the consecutive handles from `first`. */
  lemma HandlesAbove(first: Handle, n: nat, h: Handle)
    requires h < first
    ensures h !in Handles(first, n) && h !in Elems(Handles(first, n))
  {
  }

  /** Deleting a template that was added beside its copies leaves the rest. */
  lemma RemoveTemplate(rest: set<Handle>, template: Handle, copies: set<Handle>)
    requires template !in rest && template !in copies
    ensures rest + {template} + copies - {template} == rest + copies
  {
  }

  function Elems(s: seq<Handle>): set<Handle>
  {
    set h | h in s
  }

  class Scene {
    var log: seq<Command>
    var live: set<Handle>
    var next: Handle

    ghost predicate Valid()
      reads this
    {
      forall h :: h in live ==> h < next
    }

    constructor ()
      ensures Valid() && log == [] && live == {} && next == 0
    {
      log, live, next := [], {}, 0;
    }

    /** polyCylinder: a new cylinder with `subdivAxis` radial facets. */
    method PolyCylinder(radius: real, height: real, subdivAxis: int) returns (h: Handle)
      requires Valid()
      modifies this
      ensures Valid() && h == old(next) && next == h + 1
      ensures live == old(live) + {h}
      ensures log == old(log) + [Cylinder(h, radius, height, subdivAxis)]
    {
      h := next;
      log, live, next := log + [Cylinder(h, radius, height, subdivAxis)], live + {h}, next + 1;
    }

    /** polyCube: a new subdivided box. */
    method PolyCube(width: real, height: real, depth: real, subdivX: int, subdivY: int) returns (h: Handle)
      requires Valid()
      modifies this
      ensures Valid() && h == old(next) && next == h + 1
      ensures live == old(live) + {h}
      ensures log == old(log) + [Cube(h, width, height, depth, subdivX, subdivY)]
    {
      h := next;
      log, live, next := log + [Cube(h, width, height, depth, subdivX, subdivY)], live + {h}, next + 1;
    }

    /** move on one vertex of an object. */
    method Move(obj: Handle, vertex: int, to: Vec)
      requires Valid()
      modifies this
      ensures Valid() && next == old(next) && live == old(live)
      ensures log == old(log) + [MoveVertex(obj, vertex, to)]
    {
      log := log + [MoveVertex(obj, vertex, to)];
    }

    /** move on a whole object. */
    method Place(obj: Handle, dest: Point)
      requires Valid()
      modifies this
      ensures Valid() && next == old(next) && live == old(live)
      ensures log == old(log) + [MoveObject(obj, dest)]
    {
      log := log + [MoveObject(obj, dest)];
    }

    method Turn(obj: Handle, angles: Vec)
      requires Valid()
      modifies this
      ensures Valid() && next == old(next) && live == old(live)
      ensures log == old(log) + [Rotate(obj, angles)]
    {
      log := log + [Rotate(obj, angles)];
    }

    method Resize(obj: Handle, factors: Vec)
      requires Valid()
      modifies this
      ensures Valid() && next == old(next) && live == old(live)
      ensures log == old(log) + [Scale(obj, factors)]
    {
      log := log + [Scale(obj, factors)];
    }

    /** duplicate: a new independent copy of `source`. */
    method Copy(source: Handle) returns (h: Handle)
      requires Valid()
      modifies this
      ensures Valid() && h == old(next) && next == h + 1
      ensures live == old(live) + {h}
      ensures log == old(log) + [Duplicate(source, h)]
    {
      h := next;
      log, live, next := log + [Duplicate(source, h)], live + {h}, next + 1;
    }

    /** delete: the object leaves the scene graph. */
    method Remove(obj: Handle)
      requires Valid()
      modifies this
      ensures Valid() && next == old(next)
      ensures live == old(live) - {obj}
      ensures log == old(log) + [Delete(obj)]
    {
      log, live := log + [Delete(obj)], live - {obj};
    }

    /** select(clear=True). */
    method SelectClear()
      requires Valid()
      modifies this
      ensures Valid() && next == old(next) && live == old(live)
      ensures log == old(log) + [ClearSelection]
    {
      log := log + [ClearSelection];
    }
  }
}
