/**
 Petal sculpting by an inclusive range of vertex indices, the form used by
 flowerforge.py and genflower.py: vertex `first + k` is moved to the k-th
 offset of the table, mirrored on the right side. The table has six entries,
 so a range longer than six raises IndexError after six moves.
 */
module VertexRange {
  import opened MayaScene
  import opened FlowerTables

  /** The side names the scripts pass; any other name moves nothing. */
  const Left := "L"
  const Right := "R"

  /** The offset of the k-th vertex of a range on `side`. */
  function SideOffset(side: string, k: nat): Vec
    requires k < 6
  {
    if side == Right then Mirror(VertexMoves()[k]) else VertexMoves()[k]
  }

  /** The moves of the first k vertices of a range starting at `first`. */
  function RangePlan(petal: Handle, side: string, first: int, k: nat): (plan: seq<Command>)
    requires k <= 6
  {
    seq(k, j requires 0 <= j < k => MoveVertex(petal, first + j, SideOffset(side, j)))
  }

  /** Move j of a range plan moves vertex first + j of the petal to table
      entry j, mirrored on the right. */
  lemma RangePlanMoves(petal: Handle, side: string, first: int, k: nat)
    requires k <= 6
    ensures forall j {:trigger RangePlan(petal, side, first, k)[j]} :: 0 <= j < k ==>
      var m := RangePlan(petal, side, first, k)[j];
      m.MoveVertex? && m.obj == petal && m.vertex == first + j &&
      m.to == (if side == Right then Mirror(VertexMoves()[j]) else VertexMoves()[j])
  {
  }

  /** A log that held the first k moves of a range and grew by the move of
      vertex first + k holds the first k + 1. */
  lemma RangePlanGrows(petal: Handle, side: string, first: int, k: nat,
                       base: seq<Command>, current: seq<Command>, after: seq<Command>)
    requires k < 6
    requires current == base + RangePlan(petal, side, first, k)
    requires after == current + [MoveVertex(petal, first + k, SideOffset(side, k))]
    ensures after == base + RangePlan(petal, side, first, k + 1)
  {
    assert RangePlan(petal, side, first, k + 1)
           == RangePlan(petal, side, first, k) + [MoveVertex(petal, first + k, SideOffset(side, k))];
  }

  /** Number of vertices in the inclusive range first..last. */
  function RangeLength(first: int, last: int): nat
  {
    if last < first then 0 else last - first + 1
  }

  /** move_vertices: moves vertices first..last inclusive of `petal` on `side`.
      Fails with IndexError, after six moves, when the range is longer than the
      offset table; a side other than "L" or "R" issues nothing and succeeds. */
  method MoveVertices(scene: Scene, petal: Handle, side: string, first: int, last: int) returns (r: Result<()>)
    requires scene.Valid()
    modifies scene
    ensures scene.Valid() && scene.next == old(scene.next) && scene.live == old(scene.live)
    ensures side != Left && side != Right ==> r.Ok? && scene.log == old(scene.log)
    ensures (side == Left || side == Right) && RangeLength(first, last) <= 6 ==>
      r.Ok? && scene.log == old(scene.log) + RangePlan(petal, side, first, RangeLength(first, last))
    ensures (side == Left || side == Right) && RangeLength(first, last) > 6 ==>
      r == Err(IndexError) && scene.log == old(scene.log) + RangePlan(petal, side, first, 6)
  {
    var sides := side == Left || side == Right;
    var i := first;
    while i <= last
      invariant first <= i <= first + RangeLength(first, last)
      invariant sides ==> i - first <= 6
      invariant scene.Valid() && scene.next == old(scene.next) && scene.live == old(scene.live)
      invariant sides ==> scene.log == old(scene.log) + RangePlan(petal, side, first, i - first)
      invariant !sides ==> scene.log == old(scene.log)
    {
      if sides {
        if i - first >= 6 {
          return Err(IndexError);
        }
        var pos := VertexMoves()[i - first];
        ghost var before := scene.log;
        if side == Left {
          scene.Move(petal, i, pos);
        } else {
          scene.Move(petal, i, Mirror(pos));
        }
        RangePlanGrows(petal, side, first, i - first, old(scene.log), before, scene.log);
      }
      i := i + 1;
    }
    return Ok(());
  }

  /** The two ranges create_petal sculpts, 12..17 on the left and 21..26 on the
      right: disjoint, six vertices each, so each uses the whole table once,
      and vertex 21 + k mirrors vertex 12 + k. */
  lemma PetalRanges(petal: Handle)
    ensures RangeLength(12, 17) == 6 && RangeLength(21, 26) == 6
    ensures forall k :: 0 <= k < 6 ==>
      RangePlan(petal, Left, 12, 6)[k] == MoveVertex(petal, 12 + k, VertexMoves()[k]) &&
      RangePlan(petal, Right, 21, 6)[k] == MoveVertex(petal, 21 + k, Mirror(VertexMoves()[k]))
    ensures forall j, k :: 0 <= j < 6 && 0 <= k < 6 ==>
      RangePlan(petal, Left, 12, 6)[j].vertex != RangePlan(petal, Right, 21, 6)[k].vertex
  {
  }

  /** The moves of the petal outline both range-based scripts sculpt: vertices
      12..17 on the left, then 21..26 on the right. */
  function PetalOutline(petal: Handle): seq<Command>
  {
    RangePlan(petal, Left, 12, 6) + RangePlan(petal, Right, 21, 6)
  }

  /** The outline only moves vertices of the petal, twelve of them. */
  lemma OutlineMovesVertices(petal: Handle)
    ensures |PetalOutline(petal)| == 12
    ensures forall j :: 0 <= j < 12 ==> PetalOutline(petal)[j].MoveVertex? && PetalOutline(petal)[j].obj == petal
  {
    var left, right := RangePlan(petal, Left, 12, 6), RangePlan(petal, Right, 21, 6);
    forall j | 0 <= j < 12
      ensures PetalOutline(petal)[j].MoveVertex? && PetalOutline(petal)[j].obj == petal
    {
      if j < 6 {
        assert PetalOutline(petal)[j] == left[j];
      } else {
        assert PetalOutline(petal)[j] == right[j - 6];
      }
    }
  }

  /** The two move_vertices calls both range-based scripts make on a fresh
      template: 12..17 on the left, 21..26 on the right; neither fails. */
  method OutlinePetal(scene: Scene, petal: Handle)
    requires scene.Valid()
    modifies scene
    ensures scene.Valid() && scene.next == old(scene.next) && scene.live == old(scene.live)
    ensures scene.log == old(scene.log) + PetalOutline(petal)
  {
    var left := MoveVertices(scene, petal, Left, 12, 17);
    var right := MoveVertices(scene, petal, Right, 21, 26);
    assert left.Ok? && right.Ok?;
  }

  /** Mirror symmetry: the right offset of each table position has the left
      offset's x and y and the opposite z. */
  lemma MirrorSymmetry(k: nat)
    requires k < 6
    ensures SideOffset(Right, k).x == SideOffset(Left, k).x
    ensures SideOffset(Right, k).y == SideOffset(Left, k).y
    ensures SideOffset(Right, k).z == -SideOffset(Left, k).z
  {
  }
}
