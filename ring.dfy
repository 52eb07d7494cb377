/**
 Ring arrangement: the i-th of n petal copies sits at angle i * (360 / n)
 degrees. This module holds the exact angle arithmetic, the commands one
 iteration of an arranging loop issues, and what the whole ring of commands
 contains when filtered by kind.
 */
module RingLayout {
  import opened MayaScene

  /** 360.0 / n; the scripts raise ZeroDivisionError for n == 0. */
  function Increment(n: int): real
    requires n != 0
  {
    360.0 / (n as real)
  }

  /** The angle in degrees of the i-th petal of a ring of n: i increments
      past the first petal, which sits at angle 0. */
  function Angle(i: nat, n: int): real
    requires n != 0
  {
    if i == 0 then 0.0 else Angle(i - 1, n) + Increment(n)
  }

  /** Angle(i, n) is the exact rational i * (360 / n); the scripts compute the
      same product in floating point. */
  lemma {:induction false} AngleIsExact(i: nat, n: int)
    requires n != 0
    ensures Angle(i, n) == (i as real) * Increment(n)
  {
    if i > 0 {
      AngleIsExact(i - 1, n);
    }
  }

  /** The loop's angle: i times the increment the loop computed once. */
  lemma AngleOfStep(i: nat, n: int, increment: real, angle: real)
    requires n != 0 && increment == 360.0 / (n as real) && angle == (i as real) * increment
    ensures angle == Angle(i, n)
  {
    AngleIsExact(i, n);
  }

  /** The angles of a ring start at 0, strictly increase and stay below a full turn. */
  lemma AnglesAscend(i: nat, j: nat, n: int)
    requires i < j < n
    ensures Angle(0, n) == 0.0
    ensures 0.0 <= Angle(i, n) < Angle(j, n) < 360.0
  {
    AngleIsExact(i, n);
    AngleIsExact(j, n);
    var inc := Increment(n);
    assert inc > 0.0;
    assert (n as real) * inc == 360.0;
    assert Angle(j, n) - Angle(i, n) == ((j - i) as real) * inc;
    assert 360.0 - Angle(j, n) == ((n - j) as real) * inc;
  }

  /** How one iteration orients and places its copy.
      TurnThenPlace: turn about y by -angle, then move onto the ring.
      LayFlatPlaceTurn: rotate 90 degrees about x, optionally scale the
      template, move onto the ring, then turn about y by -angle. */
  datatype StepStyle = TurnThenPlace | LayFlatPlaceTurn(scaleTemplate: bool)

  /** The factors the scale-and-tilt hook applies. */
  const TemplateScale := Vec(0.7, 0.5, 0.8)

  /** The commands of the iteration that makes copy `inst` of `template` at `angle`. */
  function Steps(style: StepStyle, template: Handle, inst: Handle, angle: real, edge: real): seq<Command>
  {
    match style
    case TurnThenPlace =>
      [Duplicate(template, inst), Rotate(inst, Vec(0.0, -angle, 0.0)),
       MoveObject(inst, OnRing(edge, angle, 0.0))]
    case LayFlatPlaceTurn(scaled) =>
      [Duplicate(template, inst), Rotate(inst, Vec(90.0, 0.0, 0.0))]
      + (if scaled then [Scale(template, TemplateScale)] else [])
      + [MoveObject(inst, OnRing(edge, angle, 0.0)), Rotate(inst, Vec(0.0, -angle, 0.0))]
  }

  /** The commands of the first k iterations of a ring of n copies, numbered from `first`. */
  function RingLog(style: StepStyle, template: Handle, first: Handle, n: int, edge: real, k: nat): seq<Command>
    requires n != 0
  {
    if k == 0 then []
    else RingLog(style, template, first, n, edge, k - 1)
         + Steps(style, template, first + k - 1, Angle(k - 1, n), edge)
  }

  /** A ring of k > 0 iterations is the ring of k - 1 followed by iteration k - 1. */
  lemma RingLogUnfold(style: StepStyle, template: Handle, first: Handle, n: int, edge: real, k: nat)
    requires n != 0 && k > 0
    ensures RingLog(style, template, first, n, edge, k)
            == RingLog(style, template, first, n, edge, k - 1) + Steps(style, template, first + k - 1, Angle(k - 1, n), edge)
  {
  }

  /** A log that held the first k iterations and grew by iteration k holds the first k + 1. */
  lemma RingLogGrows(style: StepStyle, template: Handle, first: Handle, n: int, edge: real, k: nat,
                     before: seq<Command>, current: seq<Command>, after: seq<Command>)
    requires n != 0
    requires current == before + RingLog(style, template, first, n, edge, k)
    requires after == current + Steps(style, template, first + k, Angle(k, n), edge)
    ensures after == before + RingLog(style, template, first, n, edge, k + 1)
  {
    RingLogUnfold(style, template, first, n, edge, k + 1);
    AppendAssoc(before, RingLog(style, template, first, n, edge, k), Steps(style, template, first + k, Angle(k, n), edge));
  }

  /** The kinds of command a ring is checked for. */
  datatype Kind = Duplicates | Placements | Scalings

  predicate OfKind(kind: Kind, c: Command)
  {
    match kind
    case Duplicates => c.Duplicate?
    case Placements => c.MoveObject?
    case Scalings => c.Scale?
  }

  /** The commands of one kind in a log, in issue order. */
  function Filter(kind: Kind, log: seq<Command>): seq<Command>
  {
    if log == [] then []
    else (if OfKind(kind, log[0]) then [log[0]] else []) + Filter(kind, log[1..])
  }

  lemma {:induction false} FilterAppend(kind: Kind, a: seq<Command>, b: seq<Command>)
    ensures Filter(kind, a + b) == Filter(kind, a) + Filter(kind, b)
  {
    if a != [] {
      assert (a + b)[0] == a[0];
      assert (a + b)[1..] == a[1..] + b;
      FilterAppend(kind, a[1..], b);
    } else {
      assert a + b == b;
    }
  }

  /** A log holding no command of a kind filters to nothing. */
  lemma {:induction false} FilterNone(kind: Kind, log: seq<Command>)
    requires forall j :: 0 <= j < |log| ==> !OfKind(kind, log[j])
    ensures Filter(kind, log) == []
  {
    if log != [] {
      assert forall j :: 0 <= j < |log[1..]| ==> log[1..][j] == log[j + 1];
      FilterNone(kind, log[1..]);
    }
  }

  /** Commands of other kinds before and after a log do not change what
      filtering it keeps. */
  lemma FilterFramed(kind: Kind, setup: seq<Command>, body: seq<Command>, tail: seq<Command>)
    requires forall j :: 0 <= j < |setup| ==> !OfKind(kind, setup[j])
    requires forall j :: 0 <= j < |tail| ==> !OfKind(kind, tail[j])
    ensures Filter(kind, setup + body + tail) == Filter(kind, body)
  {
    FilterAppend(kind, setup + body, tail);
    FilterAppend(kind, setup, body);
    FilterNone(kind, setup);
    FilterNone(kind, tail);
  }

  /** Filtering a single command keeps it exactly when it is of the kind. */
  lemma FilterSingle(kind: Kind, c: Command)
    ensures Filter(kind, [c]) == if OfKind(kind, c) then [c] else []
  {
    assert [c][1..] == [];
  }

  /** What filtering one iteration by `kind` keeps: the duplicate of the
      template, the placement of the copy, or the template's scaling when the
      style asks for it. */
  function StepKept(kind: Kind, style: StepStyle, template: Handle, inst: Handle, angle: real, edge: real): seq<Command>
  {
    match kind
    case Duplicates => [Duplicate(template, inst)]
    case Placements => [MoveObject(inst, OnRing(edge, angle, 0.0))]
    case Scalings =>
      if style.LayFlatPlaceTurn? && style.scaleTemplate then [Scale(template, TemplateScale)] else []
  }

  /** Filtering a duplicate, a turn, a placement (and, when given, a trailing turn). */
  lemma FilterDupTurnPlace(kind: Kind, dup: Command, turn: Command, place: Command, rest: seq<Command>)
    requires dup.Duplicate? && turn.Rotate? && place.MoveObject?
    requires rest == [] || (|rest| == 1 && rest[0].Rotate?)
    ensures Filter(kind, [dup] + [turn] + [place] + rest)
            == (if kind.Duplicates? then [dup] else []) + (if kind.Placements? then [place] else [])
  {
    FilterSingle(kind, dup);
    FilterSingle(kind, turn);
    FilterSingle(kind, place);
    FilterAppend(kind, [dup] + [turn] + [place], rest);
    FilterAppend(kind, [dup] + [turn], [place]);
    FilterAppend(kind, [dup], [turn]);
    if rest != [] {
      assert rest == [rest[0]];
      FilterSingle(kind, rest[0]);
    }
  }

  /** Filtering one iteration's commands keeps exactly StepKept. */
  lemma StepFilter(kind: Kind, style: StepStyle, template: Handle, inst: Handle, angle: real, edge: real)
    ensures Filter(kind, Steps(style, template, inst, angle, edge)) == StepKept(kind, style, template, inst, angle, edge)
  {
    var dup, place := Duplicate(template, inst), MoveObject(inst, OnRing(edge, angle, 0.0));
    var turn, flat := Rotate(inst, Vec(0.0, -angle, 0.0)), Rotate(inst, Vec(90.0, 0.0, 0.0));
    if style.TurnThenPlace? {
      assert Steps(style, template, inst, angle, edge) == [dup] + [turn] + [place] + [];
      FilterDupTurnPlace(kind, dup, turn, place, []);
    } else if !style.scaleTemplate {
      assert Steps(style, template, inst, angle, edge) == [dup] + [flat] + [place] + [turn];
      FilterDupTurnPlace(kind, dup, flat, place, [turn]);
    } else {
      var sc := Scale(template, TemplateScale);
      assert Steps(style, template, inst, angle, edge) == [dup, flat] + [sc] + [place, turn];
      FilterDupTurnPlace(kind, dup, flat, place, [turn]);
      assert [dup, flat] + [place, turn] == [dup] + [flat] + [place] + [turn];
      FilterAppend(kind, [dup, flat] + [sc], [place, turn]);
      FilterAppend(kind, [dup, flat], [sc]);
      FilterAppend(kind, [dup, flat], [place, turn]);
      FilterSingle(kind, sc);
    }
  }

  /** Filtering a ring of k iterations keeps what filtering k - 1 kept plus
      what the k-th iteration keeps. */
  lemma RingFilterStep(kind: Kind, style: StepStyle, template: Handle, first: Handle, n: int, edge: real, k: nat)
    requires n != 0 && k > 0
    ensures Filter(kind, RingLog(style, template, first, n, edge, k))
            == Filter(kind, RingLog(style, template, first, n, edge, k - 1))
               + StepKept(kind, style, template, first + k - 1, Angle(k - 1, n), edge)
  {
    var prev := RingLog(style, template, first, n, edge, k - 1);
    var step := Steps(style, template, first + k - 1, Angle(k - 1, n), edge);
    RingLogUnfold(style, template, first, n, edge, k);
    FilterAppend(kind, prev, step);
    StepFilter(kind, style, template, first + k - 1, Angle(k - 1, n), edge);
  }

  /** The placements of k - 1 iterations, followed by the placement of the
      k-th copy, are the placements of k iterations. */
  lemma PlacementsSnoc(placed: seq<Command>, before: seq<Command>, first: Handle, n: int, edge: real, k: nat)
    requires n != 0 && k > 0 && |before| == k - 1
    requires forall i {:trigger before[i]} :: 0 <= i < k - 1 ==>
      before[i] == MoveObject(first + i, OnRing(edge, Angle(i, n), 0.0))
    requires placed == before + [MoveObject(first + k - 1, OnRing(edge, Angle(k - 1, n), 0.0))]
    ensures |placed| == k
    ensures forall i {:trigger placed[i]} :: 0 <= i < k ==>
      placed[i] == MoveObject(first + i, OnRing(edge, Angle(i, n), 0.0))
  {
  }

  /** A ring of k iterations duplicates the template exactly k times, and the
      i-th copy is the fresh handle first + i. */
  lemma {:induction false} RingDuplicates(style: StepStyle, template: Handle, first: Handle, n: int, edge: real, k: nat)
    requires n != 0
    ensures |Filter(Duplicates, RingLog(style, template, first, n, edge, k))| == k
    ensures forall i :: 0 <= i < k ==>
      Filter(Duplicates, RingLog(style, template, first, n, edge, k))[i] == Duplicate(template, first + i)
  {
    if k > 0 {
      var prev := RingLog(style, template, first, n, edge, k - 1);
      RingDuplicates(style, template, first, n, edge, k - 1);
      RingFilterStep(Duplicates, style, template, first, n, edge, k);
      var dups := Filter(Duplicates, RingLog(style, template, first, n, edge, k));
      assert dups == Filter(Duplicates, prev) + [Duplicate(template, first + k - 1)];
      forall i | 0 <= i < k
        ensures dups[i] == Duplicate(template, first + i)
      {
        if i < k - 1 {
          assert dups[i] == Filter(Duplicates, prev)[i];
        }
      }
    }
  }

  /** A ring of k iterations places exactly k objects, in order: the i-th copy
      onto the ring of radius `edge` at angle i * 360 / n, at height 0. */
  lemma {:induction false} RingPlacements(style: StepStyle, template: Handle, first: Handle, n: int, edge: real, k: nat)
    requires n != 0
    ensures |Filter(Placements, RingLog(style, template, first, n, edge, k))| == k
    ensures forall i {:trigger Filter(Placements, RingLog(style, template, first, n, edge, k))[i]} :: 0 <= i < k ==>
      Filter(Placements, RingLog(style, template, first, n, edge, k))[i]
        == MoveObject(first + i, OnRing(edge, Angle(i, n), 0.0))
  {
    if k > 0 {
      var prev := RingLog(style, template, first, n, edge, k - 1);
      RingPlacements(style, template, first, n, edge, k - 1);
      RingFilterStep(Placements, style, template, first, n, edge, k);
      PlacementsSnoc(Filter(Placements, RingLog(style, template, first, n, edge, k)), Filter(Placements, prev),
                     first, n, edge, k);
    }
  }

  /** The template is scaled once per iteration when the style asks for it and
      never otherwise; no copy is ever scaled. */
  lemma {:induction false} RingScalings(style: StepStyle, template: Handle, first: Handle, n: int, edge: real, k: nat)
    requires n != 0
    ensures |Filter(Scalings, RingLog(style, template, first, n, edge, k))|
            == if style.LayFlatPlaceTurn? && style.scaleTemplate then k else 0
    ensures forall i :: 0 <= i < |Filter(Scalings, RingLog(style, template, first, n, edge, k))| ==>
      Filter(Scalings, RingLog(style, template, first, n, edge, k))[i] == Scale(template, TemplateScale)
  {
    if k > 0 {
      var prev := RingLog(style, template, first, n, edge, k - 1);
      RingScalings(style, template, first, n, edge, k - 1);
      RingFilterStep(Scalings, style, template, first, n, edge, k);
      var scaled := Filter(Scalings, RingLog(style, template, first, n, edge, k));
      forall i | 0 <= i < |scaled|
        ensures scaled[i] == Scale(template, TemplateScale)
      {
        if i < |Filter(Scalings, prev)| {
          assert scaled[i] == Filter(Scalings, prev)[i];
        }
      }
    }
  }
}
