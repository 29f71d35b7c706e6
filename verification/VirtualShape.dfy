/**
 * UVirtualShape (VirtualShape.cpp): a reference shape for the shape
 * recognizer. SetDotData turns the designer's dots into lines and corner
 * angles relative to the centre of their bounds; Evaluate scores a user
 * drawing (its own lines, angles and dots) against them, averaging the
 * enabled detection filters.
 *
 * Normalising a direction and the distance between two points need a
 * square root, and the corner angle an arc cosine: these are passed in as
 * functions.
 */
module VirtualShape {
  import opened Common

  /** FDotData. */
  datatype DotData = DotData(location: Vec2, isHovered: bool, isSelected: bool, isStartPoint: bool, isEndPoint: bool)

  /** FDotData(Location, true): the first dot of a stroke. */
  function StartDot(location: Vec2): DotData
  {
    DotData(location, false, false, true, false)
  }

  /** FDotData(Location): a dot inside a stroke. */
  function PlainDot(location: Vec2): DotData
  {
    DotData(location, false, false, false, false)
  }

  /** FShapeLine (the private bHasDirection flag is never read here). */
  datatype ShapeLine = ShapeLine(startPosition: Vec2, endPosition: Vec2, direction: Vec2, hasEndPoint: bool, length: real)

  /** FShapeAngle. */
  datatype ShapeAngle = ShapeAngle(cornerPosition: Vec2, angle: real, isRightCornerAngle: bool)

  /** EDetectionFilter bits. */
  const AngleBased: bv32 := 0x01
  const LineBased: bv32 := 0x02
  const DotBased: bv32 := 0x04

  /** TNumericLimits<float>::Max(). */
  const FloatMax: real := 340282346638528859811704183484516925440.0

  /** The 2D dot product (operator |). */
  function DotProduct(a: Vec2, b: Vec2): real
  {
    a.x * b.x + a.y * b.y
  }

  // ---------------------------------------------------------------- Greedy matching

  /** The first reference `near` the drawn value `x`, or -1. */
  function FirstMatch<T, U>(refs: seq<T>, x: U, near: (U, T) -> bool): (i: int)
    ensures -1 <= i < |refs|
    ensures i >= 0 ==> near(x, refs[i]) && forall k :: 0 <= k < i ==> !near(x, refs[k])
    ensures i == -1 ==> forall k :: 0 <= k < |refs| ==> !near(x, refs[k])
  {
    if refs == [] then -1
    else if near(x, refs[0]) then 0
    else
      var j := FirstMatch(refs[1..], x, near);
      if j == -1 then -1 else j + 1
  }

  /** The references left after `x` consumes the first one near it. */
  function Consume<T, U>(refs: seq<T>, x: U, near: (U, T) -> bool): seq<T>
  {
    var i := FirstMatch(refs, x, near);
    if i < 0 then refs else refs[..i] + refs[i + 1..]
  }

  /** The references left unmatched once each drawn value, in order, consumes the first one near it. */
  function Unmatched<T, U>(refs: seq<T>, drawn: seq<U>, near: (U, T) -> bool): seq<T>
  {
    if drawn == [] then refs
    else Consume(Unmatched(refs, drawn[..|drawn| - 1], near), drawn[|drawn| - 1], near)
  }

  /** Every drawn value consumes at most one reference, so at most |drawn| are matched. */
  lemma {:induction false} UnmatchedBounds<T, U>(refs: seq<T>, drawn: seq<U>, near: (U, T) -> bool)
    ensures |refs| - |drawn| <= |Unmatched(refs, drawn, near)| <= |refs|
  {
    if drawn != [] {
      UnmatchedBounds(refs, drawn[..|drawn| - 1], near);
    }
  }

  // ---------------------------------------------------------------- Scores

  /** FMath::IsNearlyEqual with the tolerance of 5 degrees. */
  predicate AnglesNear(drawn: ShapeAngle, reference: real)
  {
    Abs(drawn.angle - reference) <= 5.0
  }

  /** A drawn line follows a reference direction: dot product at least 0.85. */
  predicate DirectionsAligned(drawn: ShapeLine, reference: Vec2)
  {
    DotProduct(drawn.direction, reference) >= 0.85
  }

  function AngleValues(angles: seq<ShapeAngle>): (r: seq<real>)
    ensures |r| == |angles| && forall i :: 0 <= i < |r| ==> r[i] == angles[i].angle
  {
    seq(|angles|, i requires 0 <= i < |angles| => angles[i].angle)
  }

  function Directions(lines: seq<ShapeLine>): (r: seq<Vec2>)
    ensures |r| == |lines| && forall i :: 0 <= i < |r| ==> r[i] == lines[i].direction
  {
    seq(|lines|, i requires 0 <= i < |lines| => lines[i].direction)
  }

  function SumAngles(angles: seq<ShapeAngle>): real
  {
    if angles == [] then 0.0 else SumAngles(angles[..|angles| - 1]) + angles[|angles| - 1].angle
  }

  function SumLengths(lines: seq<ShapeLine>): real
  {
    if lines == [] then 0.0 else SumLengths(lines[..|lines| - 1]) + lines[|lines| - 1].length
  }

  function SumDirections(lines: seq<ShapeLine>): Vec2
  {
    if lines == [] then Zero2 else SumDirections(lines[..|lines| - 1]).Plus(lines[|lines| - 1].direction)
  }

  /** The count difference as the float the source computes. */
  function CountGap(a: nat, b: nat): real
  {
    Abs((a - b) as real)
  }

  /**
   * EvaluateAngles against the reference angles (and their total): 0 when
   * exactly one side has no angle, 100 when neither has; otherwise 0 when
   * more than two reference angles find no drawn angle within 5 degrees,
   * else 100 less 10 per missing or extra angle, 15 per unmatched reference
   * and the gap between the angle totals, clamped to [0,100].
   */
  function AngleScore(refs: seq<ShapeAngle>, totalAngleValue: real, angles: seq<ShapeAngle>): (r: real)
    ensures 0.0 <= r <= 100.0
    ensures refs == [] && angles == [] ==> r == 100.0
    ensures (refs == []) != (angles == []) ==> r == 0.0
    ensures |Unmatched(AngleValues(refs), angles, AnglesNear)| > 2 ==> r == 0.0
  {
    if (|refs| > 0 && |angles| <= 0) || (|refs| <= 0 && |angles| > 0) then 0.0
    else if |refs| <= 0 && |angles| <= 0 then 100.0
    else
      var fail := |Unmatched(AngleValues(refs), angles, AnglesNear)|;
      if fail > 2 then 0.0
      else Clamp(100.0 - 10.0 * CountGap(|refs|, |angles|) - 15.0 * fail as real - Abs(totalAngleValue - SumAngles(angles)), 0.0, 100.0)
  }

  /**
   * EvaluateLines: 0 when more than two reference directions find no drawn
   * line along them, else 100 less 20 per missing or extra line and 15 per
   * unmatched direction, clamped to [0,100].
   */
  function LineScore(refs: seq<ShapeLine>, lines: seq<ShapeLine>): (r: real)
    ensures 0.0 <= r <= 100.0
    ensures |Unmatched(Directions(refs), lines, DirectionsAligned)| > 2 ==> r == 0.0
  {
    var fail := |Unmatched(Directions(refs), lines, DirectionsAligned)|;
    if fail > 2 then 0.0
    else Clamp(100.0 - 20.0 * CountGap(|refs|, |lines|) - 15.0 * fail as real, 0.0, 100.0)
  }

  /** EvaluateDot: 100 less 10 per missing or extra dot, never below 0. */
  function DotScore(refCount: nat, count: nat): (r: real)
    ensures 0.0 <= r <= 100.0
    ensures r == 100.0 <==> refCount == count
    ensures r == Max(0.0, 100.0 - 10.0 * CountGap(refCount, count))
  {
    Clamp(100.0 - 10.0 * CountGap(refCount, count), 0.0, 100.0)
  }

  /** The number of known detection filters set. */
  function FilterCount(filters: bv32): nat
  {
    (if filters & AngleBased != 0 then 1 else 0)
    + (if filters & LineBased != 0 then 1 else 0)
    + (if filters & DotBased != 0 then 1 else 0)
  }

  /**
   * Evaluate: the mean of the scores of the enabled filters. With no known
   * filter bit set the source divides 0 by 0 (a NaN), modelled as None.
   */
  function Average(filters: bv32, angleScore: real, lineScore: real, dotScore: real): real
    requires FilterCount(filters) > 0
  {
    ((if filters & AngleBased != 0 then angleScore else 0.0)
     + (if filters & LineBased != 0 then lineScore else 0.0)
     + (if filters & DotBased != 0 then dotScore else 0.0)) / FilterCount(filters) as real
  }

  function EvaluateScore(filters: bv32, angleScore: real, lineScore: real, dotScore: real): Option<real>
  {
    if FilterCount(filters) == 0 then None else Some(Average(filters, angleScore, lineScore, dotScore))
  }

  /**
   * The score is undefined exactly when none of the three filter bits is
   * set; otherwise it lies in [0,100] whenever the filter scores do, and a
   * single filter gives that filter's own score.
   */
  lemma EvaluateScoreSpec(filters: bv32, a: real, l: real, d: real)
    requires 0.0 <= a <= 100.0 && 0.0 <= l <= 100.0 && 0.0 <= d <= 100.0
    ensures EvaluateScore(filters, a, l, d).None? <==> filters & 0x07 == 0
    ensures EvaluateScore(filters, a, l, d).Some? ==> 0.0 <= EvaluateScore(filters, a, l, d).value <= 100.0
    ensures filters & 0x07 == AngleBased ==> EvaluateScore(filters, a, l, d) == Some(a)
    ensures filters & 0x07 == LineBased ==> EvaluateScore(filters, a, l, d) == Some(l)
    ensures filters & 0x07 == DotBased ==> EvaluateScore(filters, a, l, d) == Some(d)
  {
    FilterBits(filters);
    if FilterCount(filters) > 0 {
      var n := FilterCount(filters) as real;
      var s := (if filters & AngleBased != 0 then a else 0.0)
        + (if filters & LineBased != 0 then l else 0.0)
        + (if filters & DotBased != 0 then d else 0.0);
      assert 0.0 <= s <= 100.0 * n;
      assert Average(filters, a, l, d) == s / n;
    }
  }

  lemma FilterBits(filters: bv32)
    ensures filters & 0x07 == 0 <==> (filters & AngleBased == 0 && filters & LineBased == 0 && filters & DotBased == 0)
    ensures filters & 0x07 == AngleBased ==> filters & AngleBased != 0 && filters & LineBased == 0 && filters & DotBased == 0
    ensures filters & 0x07 == LineBased ==> filters & AngleBased == 0 && filters & LineBased != 0 && filters & DotBased == 0
    ensures filters & 0x07 == DotBased ==> filters & AngleBased == 0 && filters & LineBased == 0 && filters & DotBased != 0
  {
  }

  /**
   * A drawing identical to the reference scores full marks: its angles
   * (when their total is the reference total) and its lines (when each
   * direction is aligned with itself, as a unit vector is).
   */
  lemma PerfectDrawingScoresFull(refAngles: seq<ShapeAngle>, refLines: seq<ShapeLine>)
    requires forall i :: 0 <= i < |refLines| ==> DirectionsAligned(refLines[i], refLines[i].direction)
    ensures AngleScore(refAngles, SumAngles(refAngles), refAngles) == 100.0
    ensures LineScore(refLines, refLines) == 100.0
  {
    var values := AngleValues(refAngles);
    forall i | 0 <= i < |refAngles|
      ensures AnglesNear(refAngles[i], values[i])
    {
    }
    SelfMatch(refAngles, values, AnglesNear);
    var dirs := Directions(refLines);
    SelfMatch(refLines, dirs, DirectionsAligned);
  }

  /** Drawing x[0], x[1], … against references r[0], r[1], … with each x[i] near r[i] matches every reference. */
  lemma {:induction false} SelfMatch<T, U>(drawn: seq<U>, refs: seq<T>, near: (U, T) -> bool)
    requires |drawn| == |refs|
    requires forall i :: 0 <= i < |refs| ==> near(drawn[i], refs[i])
    ensures Unmatched(refs, drawn, near) == []
  {
    SelfMatchPrefix(drawn, refs, near, |refs|);
    assert drawn[..|refs|] == drawn;
  }

  lemma {:induction false} SelfMatchPrefix<T, U>(drawn: seq<U>, refs: seq<T>, near: (U, T) -> bool, k: nat)
    requires |drawn| == |refs| && k <= |refs|
    requires forall i :: 0 <= i < |refs| ==> near(drawn[i], refs[i])
    ensures Unmatched(refs, drawn[..k], near) == refs[k..]
  {
    if k > 0 {
      assert drawn[..k][..k - 1] == drawn[..k - 1];
      SelfMatchPrefix(drawn, refs, near, k - 1);
      assert drawn[..k][k - 1] == drawn[k - 1];
      assert FirstMatch(refs[k - 1..], drawn[k - 1], near) == 0;
      assert refs[k - 1..][1..] == refs[k..];
    }
  }

  // ---------------------------------------------------------------- Shape data

  /** Every component of `a` strictly below that of `b` (ComponentwiseAllLessThan). */
  predicate AllLess(a: Vec2, b: Vec2)
  {
    a.x < b.x && a.y < b.y
  }

  /** The bounds SetDotData folds over the dots: (top-left, bottom-right). */
  function Bounds(dots: seq<DotData>): (Vec2, Vec2)
  {
    if dots == [] then (Vec2(FloatMax, FloatMax), Zero2)
    else
      var (tl, br) := Bounds(dots[..|dots| - 1]);
      var p := dots[|dots| - 1].location;
      (if AllLess(p, tl) then p else tl, if AllLess(br, p) then p else br)
  }

  /**
   * The bounds are extreme: no dot lies strictly above and left of the
   * top-left bound, nor strictly below and right of the bottom-right one.
   */
  lemma {:induction false} BoundsExtreme(dots: seq<DotData>)
    ensures forall i :: 0 <= i < |dots| ==> !AllLess(dots[i].location, Bounds(dots).0) && !AllLess(Bounds(dots).1, dots[i].location)
  {
    if dots != [] {
      var init := dots[..|dots| - 1];
      BoundsExtreme(init);
      forall i | 0 <= i < |init|
        ensures init[i] == dots[i]
      {
      }
    }
  }

  /** The centre of the bounds. */
  function BoundCenter(tl: Vec2, br: Vec2): Vec2
  {
    tl.Plus(br.Minus(tl).Scale(0.5))
  }

  /** CalculateDataBasedOnBound: each dot as seen from the centre, keeping only its start/end flags. */
  function Relative(dots: seq<DotData>, center: Vec2): (r: seq<DotData>)
    ensures |r| == |dots|
    ensures forall i :: 0 <= i < |r| ==>
      r[i].location == center.Minus(dots[i].location)
      && r[i].isStartPoint == dots[i].isStartPoint && r[i].isEndPoint == dots[i].isEndPoint
      && !r[i].isHovered && !r[i].isSelected
  {
    seq(|dots|, i requires 0 <= i < |dots| => DotData(center.Minus(dots[i].location), false, false, dots[i].isStartPoint, dots[i].isEndPoint))
  }

  /**
   * The lines of SetDotData after `k` steps: a dot that is not an end point
   * starts a line to the next dot; an end point marks the previous line as
   * ending there.
   */
  function LinesUpTo(rel: seq<DotData>, k: nat, normal: Vec2 -> Vec2, dist: (Vec2, Vec2) -> real): (r: seq<ShapeLine>)
    requires k < |rel| || k == 0
    requires k > 0 ==> !rel[0].isEndPoint
    ensures k > 0 ==> r != []
  {
    if k == 0 then []
    else
      var prev := LinesUpTo(rel, k - 1, normal, dist);
      var d, next := rel[k - 1], rel[k];
      if !d.isEndPoint then
        prev + [ShapeLine(d.location, next.location, normal(next.location.Minus(d.location)), false, dist(d.location, next.location))]
      else
        prev[..|prev| - 1] + [prev[|prev| - 1].(hasEndPoint := true)]
  }

  /** All the lines of SetDotData: one step per dot but the last. */
  function Lines(rel: seq<DotData>, normal: Vec2 -> Vec2, dist: (Vec2, Vec2) -> real): seq<ShapeLine>
    requires |rel| >= 2 ==> !rel[0].isEndPoint
  {
    if |rel| == 0 then [] else LinesUpTo(rel, |rel| - 1, normal, dist)
  }

  /** The dots among the first k that start a line. */
  function LineStarts(rel: seq<DotData>, k: nat): nat
    requires k <= |rel|
  {
    if k == 0 then 0 else LineStarts(rel, k - 1) + (if rel[k - 1].isEndPoint then 0 else 1)
  }

  /** One line per dot that is not an end point (the last dot excepted); marking an end point changes no length. */
  lemma {:induction false} LinesUpToSpec(rel: seq<DotData>, k: nat, normal: Vec2 -> Vec2, dist: (Vec2, Vec2) -> real)
    requires k < |rel| || k == 0
    requires k > 0 ==> !rel[0].isEndPoint
    ensures |LinesUpTo(rel, k, normal, dist)| == LineStarts(rel, k)
  {
    if k > 0 {
      LinesUpToSpec(rel, k - 1, normal, dist);
    }
  }

  /** The next line after i, wrapping round to the first. */
  function NextLine(i: nat, count: nat): nat
  {
    if i + 1 > count - 1 then 0 else i + 1
  }

  /** The corner angles of SetDotData for the lines before k, when there are at least two lines. */
  function CornersUpTo(lines: seq<ShapeLine>, k: nat, cornerAngle: (Vec2, Vec2) -> real): seq<ShapeAngle>
    requires k <= |lines|
  {
    if k == 0 then []
    else
      var prev := CornersUpTo(lines, k - 1, cornerAngle);
      var l := lines[k - 1];
      if l.hasEndPoint then prev
      else
        var a := cornerAngle(l.direction, lines[NextLine(k - 1, |lines|)].direction);
        prev + [ShapeAngle(l.endPosition, a, 88.0 <= a < 92.0)]
  }

  function Corners(lines: seq<ShapeLine>, cornerAngle: (Vec2, Vec2) -> real): seq<ShapeAngle>
  {
    if |lines| > 1 then CornersUpTo(lines, |lines|, cornerAngle) else []
  }

  /** One corner per line that does not end at an end point, and each right-angle flag means 88 <= angle < 92. */
  lemma {:induction false} CornersUpToSpec(lines: seq<ShapeLine>, k: nat, cornerAngle: (Vec2, Vec2) -> real)
    requires k <= |lines|
    ensures |CornersUpTo(lines, k, cornerAngle)| == OpenLines(lines, k)
    ensures forall i :: 0 <= i < |CornersUpTo(lines, k, cornerAngle)| ==>
      (CornersUpTo(lines, k, cornerAngle)[i].isRightCornerAngle <==> 88.0 <= CornersUpTo(lines, k, cornerAngle)[i].angle < 92.0)
  {
    if k > 0 {
      CornersUpToSpec(lines, k - 1, cornerAngle);
    }
  }

  function OpenLines(lines: seq<ShapeLine>, k: nat): nat
    requires k <= |lines|
  {
    if k == 0 then 0 else OpenLines(lines, k - 1) + (if lines[k - 1].hasEndPoint then 0 else 1)
  }

  /** Everything SetDotData derives from the dots. */
  datatype ShapeGeometry = ShapeGeometry(topLeftBound: Vec2, bottomRightBound: Vec2, boundCenter: Vec2,
    relative: seq<DotData>, lines: seq<ShapeLine>, totalLength: real, sumOfLineDirections: Vec2,
    angles: seq<ShapeAngle>, totalAngleValue: real)

  /**
   * What SetDotData derives: the bounds and their centre, the dots as seen
   * from the centre, their lines and corners, and the totals of line
   * lengths, line directions and corner angles.
   */
  function GeometryOf(dots: seq<DotData>, normal: Vec2 -> Vec2, dist: (Vec2, Vec2) -> real, cornerAngle: (Vec2, Vec2) -> real): (g: ShapeGeometry)
    requires |dots| >= 2 ==> !dots[0].isEndPoint
    ensures (g.topLeftBound, g.bottomRightBound) == Bounds(dots)
    ensures g.relative == Relative(dots, g.boundCenter)
    ensures g.totalLength == SumLengths(g.lines) && g.totalAngleValue == SumAngles(g.angles)
  {
    var (tl, br) := Bounds(dots);
    var center := BoundCenter(tl, br);
    var rel := Relative(dots, center);
    var lines := Lines(rel, normal, dist);
    var angles := Corners(lines, cornerAngle);
    ShapeGeometry(tl, br, center, rel, lines, SumLengths(lines), SumDirections(lines), angles, SumAngles(angles))
  }

  /** SetDotData's computation, on values. */
  method ComputeGeometry(dots: seq<DotData>, normal: Vec2 -> Vec2, dist: (Vec2, Vec2) -> real, cornerAngle: (Vec2, Vec2) -> real) returns (g: ShapeGeometry)
    requires |dots| >= 2 ==> !dots[0].isEndPoint
    ensures g == GeometryOf(dots, normal, dist, cornerAngle)
  {
    var tl, br := ComputeBounds(dots);
    var center := BoundCenter(tl, br);
    var rel := Relative(dots, center);
    var lines, length, directions := BuildLines(rel, normal, dist);
    var angles, total := BuildCorners(lines, cornerAngle);
    g := ShapeGeometry(tl, br, center, rel, lines, length, directions, angles, total);
  }

  /** SetDotData's bounds loop. */
  method ComputeBounds(dots: seq<DotData>) returns (tl: Vec2, br: Vec2)
    ensures (tl, br) == Bounds(dots)
  {
    tl, br := Vec2(FloatMax, FloatMax), Zero2;
    for i := 0 to |dots|
      invariant (tl, br) == Bounds(dots[..i])
    {
      assert dots[..i + 1][..i] == dots[..i];
      var p := dots[i].location;
      if AllLess(p, tl) {
        tl := p;
      }
      if AllLess(br, p) {
        br := p;
      }
    }
    assert dots[..|dots|] == dots;
  }

  /** SetDotData's line loop, with the running total length and sum of directions. */
  method BuildLines(rel: seq<DotData>, normal: Vec2 -> Vec2, dist: (Vec2, Vec2) -> real)
      returns (lines: seq<ShapeLine>, totalLength: real, sumOfDirections: Vec2)
    requires |rel| >= 2 ==> !rel[0].isEndPoint
    ensures lines == Lines(rel, normal, dist)
    ensures totalLength == SumLengths(lines)
    ensures sumOfDirections == SumDirections(lines)
  {
    lines, totalLength, sumOfDirections := [], 0.0, Zero2;
    var itr := 0;
    while itr < |rel| - 1
      invariant 0 <= itr <= (if |rel| == 0 then 0 else |rel| - 1)
      invariant lines == LinesUpTo(rel, itr, normal, dist)
      invariant totalLength == SumLengths(lines)
      invariant sumOfDirections == SumDirections(lines)
    {
      var d, next := rel[itr], rel[itr + 1];
      if !d.isEndPoint {
        var direction := normal(next.location.Minus(d.location));
        var length := dist(d.location, next.location);
        sumOfDirections := sumOfDirections.Plus(direction);
        totalLength := totalLength + length;
        lines := lines + [ShapeLine(d.location, next.location, direction, false, length)];
        assert lines[..|lines| - 1] == LinesUpTo(rel, itr, normal, dist);
      } else {
        var last := lines[|lines| - 1];
        var prev := lines[..|lines| - 1];
        assert prev + [last] == lines;
        lines := prev + [last.(hasEndPoint := true)];
        assert lines[..|lines| - 1] == prev;
      }
      itr := itr + 1;
    }
  }

  /** SetDotData's corner loop, with the running total angle. */
  method BuildCorners(lines: seq<ShapeLine>, cornerAngle: (Vec2, Vec2) -> real) returns (angles: seq<ShapeAngle>, totalAngleValue: real)
    ensures angles == Corners(lines, cornerAngle)
    ensures totalAngleValue == SumAngles(angles)
  {
    angles, totalAngleValue := [], 0.0;
    if |lines| > 1 {
      for itr := 0 to |lines|
        invariant angles == CornersUpTo(lines, itr, cornerAngle)
        invariant totalAngleValue == SumAngles(angles)
      {
        var dir := lines[itr].direction;
        var nextItr := if itr + 1 > |lines| - 1 then 0 else itr + 1;
        var nextDir := lines[nextItr].direction;
        if !lines[itr].hasEndPoint {
          var angleDegree := cornerAngle(dir, nextDir);
          totalAngleValue := totalAngleValue + angleDegree;
          angles := angles + [ShapeAngle(lines[itr].endPosition, angleDegree, 88.0 <= angleDegree < 92.0)];
          assert angles[..|angles| - 1] == CornersUpTo(lines, itr, cornerAngle);
        }
      }
    }
  }

  /** The greedy matching loops of EvaluateAngles and EvaluateLines. */
  method MatchAll<T(==), U>(refs: seq<T>, drawn: seq<U>, near: (U, T) -> bool) returns (left: seq<T>, fail: int)
    ensures left == Unmatched(refs, drawn, near) && fail == |left|
  {
    left, fail := refs, |refs|;
    for d := 0 to |drawn|
      invariant left == Unmatched(refs, drawn[..d], near) && fail == |left|
    {
      assert drawn[..d + 1][..d] == drawn[..d];
      for itr := 0 to |left|
        invariant forall k :: 0 <= k < itr ==> !near(drawn[d], left[k])
      {
        if near(drawn[d], left[itr]) {
          FirstMatchIs(left, drawn[d], near, itr);
          fail := fail - 1;
          left := left[..itr] + left[itr + 1..];
          break;
        }
      }
    }
    assert drawn[..|drawn|] == drawn;
  }

  lemma FirstMatchIs<T, U>(refs: seq<T>, x: U, near: (U, T) -> bool, i: nat)
    requires i < |refs| && near(x, refs[i]) && forall k :: 0 <= k < i ==> !near(x, refs[k])
    ensures FirstMatch(refs, x, near) == i
  {
  }

  class UVirtualShape {
    var name: string
    var filters: bv32
    var dotData: seq<DotData>
    var dotDataRelativeToBoundCenter: seq<DotData>
    var shapeLines: seq<ShapeLine>
    var shapeAngles: seq<ShapeAngle>
    var totalLength: real
    var totalAngleValue: real
    var sumOfLineDirections: Vec2
    var topLeftBound: Vec2
    var bottomRightBound: Vec2
    var boundCenter: Vec2

    /** A new shape object: every property zero or empty. */
    constructor(shapeName: string, shapeFilters: bv32)
      ensures name == shapeName && filters == shapeFilters
      ensures dotData == [] && dotDataRelativeToBoundCenter == [] && shapeLines == [] && shapeAngles == []
      ensures totalLength == 0.0 && totalAngleValue == 0.0
    {
      name, filters := shapeName, shapeFilters;
      dotData, dotDataRelativeToBoundCenter, shapeLines, shapeAngles := [], [], [], [];
      totalLength, totalAngleValue := 0.0, 0.0;
      sumOfLineDirections, topLeftBound, bottomRightBound, boundCenter := Zero2, Zero2, Zero2, Zero2;
    }

    /** The fields SetDotData derives from the dots. */
    function Derived(): ShapeGeometry
      reads this
    {
      ShapeGeometry(topLeftBound, bottomRightBound, boundCenter, dotDataRelativeToBoundCenter,
        shapeLines, totalLength, sumOfLineDirections, shapeAngles, totalAngleValue)
    }

    /**
     * SetDotData: store the dots and derive the rest from them (see
     * GeometryOf). The first dot must not be an end point when there is a
     * second one (the source would take the last of no lines).
     */
    method SetDotData(inDotData: seq<DotData>, normal: Vec2 -> Vec2, dist: (Vec2, Vec2) -> real, cornerAngle: (Vec2, Vec2) -> real)
      requires |inDotData| >= 2 ==> !inDotData[0].isEndPoint
      modifies this`dotData, this`topLeftBound, this`bottomRightBound, this`boundCenter, this`dotDataRelativeToBoundCenter,
        this`shapeLines, this`shapeAngles, this`sumOfLineDirections, this`totalLength, this`totalAngleValue
      ensures dotData == inDotData
      ensures Derived() == GeometryOf(inDotData, normal, dist, cornerAngle)
    {
      var g := ComputeGeometry(inDotData, normal, dist, cornerAngle);
      dotData := inDotData;
      StoreGeometry(g);
    }

    /** The stores at the end of SetDotData. */
    method StoreGeometry(g: ShapeGeometry)
      requires g.relative == Relative(dotData, g.boundCenter)
      modifies this`topLeftBound, this`bottomRightBound, this`boundCenter, this`dotDataRelativeToBoundCenter,
        this`shapeLines, this`shapeAngles, this`sumOfLineDirections, this`totalLength, this`totalAngleValue
      ensures Derived() == g
    {
      CalculateDataBasedOnBound(g.boundCenter);
      topLeftBound, bottomRightBound, boundCenter, shapeLines, totalLength, sumOfLineDirections, shapeAngles, totalAngleValue :=
        g.topLeftBound, g.bottomRightBound, g.boundCenter, g.lines, g.totalLength, g.sumOfLineDirections, g.angles, g.totalAngleValue;
    }

    /** CalculateDataBasedOnBound: same count and start/end flags, locations as seen from the centre. */
    method CalculateDataBasedOnBound(inBoundCenter: Vec2)
      modifies this`dotDataRelativeToBoundCenter
      ensures dotDataRelativeToBoundCenter == Relative(dotData, inBoundCenter)
    {
      dotDataRelativeToBoundCenter := [];
      for i := 0 to |dotData|
        invariant dotDataRelativeToBoundCenter == Relative(dotData[..i], inBoundCenter)
      {
        var dot := dotData[i];
        dotDataRelativeToBoundCenter := dotDataRelativeToBoundCenter
          + [DotData(inBoundCenter.Minus(dot.location), false, false, dot.isStartPoint, dot.isEndPoint)];
      }
      assert dotData[..|dotData|] == dotData;
    }

    /** EvaluateAngles. */
    method EvaluateAngles(angles: seq<ShapeAngle>) returns (score: real)
      ensures score == AngleScore(shapeAngles, totalAngleValue, angles)
    {
      if (|shapeAngles| > 0 && |angles| <= 0) || (|shapeAngles| <= 0 && |angles| > 0) {
        return 0.0;
      }
      if |shapeAngles| <= 0 && |angles| <= 0 {
        return 100.0;
      }
      score := 100.0 - 10.0 * CountGap(|shapeAngles|, |angles|);
      var angleValues := [];
      for i := 0 to |shapeAngles|
        invariant angleValues == AngleValues(shapeAngles[..i])
      {
        angleValues := angleValues + [shapeAngles[i].angle];
      }
      assert shapeAngles[..|shapeAngles|] == shapeAngles;
      var left, testAngleFail := MatchAll(angleValues, angles, AnglesNear);
      if testAngleFail > 2 {
        return 0.0;
      }
      score := score - 15.0 * testAngleFail as real;
      var sum := 0.0;
      for i := 0 to |angles|
        invariant sum == SumAngles(angles[..i])
      {
        assert angles[..i + 1][..i] == angles[..i];
        sum := sum + angles[i].angle;
      }
      assert angles[..|angles|] == angles;
      score := score - Abs(totalAngleValue - sum);
      score := Clamp(score, 0.0, 100.0);
    }

    /** EvaluateLines. */
    method EvaluateLines(lines: seq<ShapeLine>) returns (score: real)
      ensures score == LineScore(shapeLines, lines)
    {
      score := 100.0 - 20.0 * CountGap(|shapeLines|, |lines|);
      var lineDirections := [];
      for i := 0 to |shapeLines|
        invariant lineDirections == Directions(shapeLines[..i])
      {
        lineDirections := lineDirections + [shapeLines[i].direction];
      }
      assert shapeLines[..|shapeLines|] == shapeLines;
      var left, testDirectionFail := MatchAll(lineDirections, lines, DirectionsAligned);
      if testDirectionFail > 2 {
        return 0.0;
      }
      score := score - 15.0 * testDirectionFail as real;
      score := Clamp(score, 0.0, 100.0);
    }

    /** EvaluateDot. */
    function EvaluateDot(dots: seq<DotData>): (score: real)
      reads this
      ensures score == DotScore(|dotData|, |dots|)
    {
      Clamp(100.0 - 10.0 * CountGap(|dotData|, |dots|), 0.0, 100.0)
    }

    /** Evaluate: the mean score of the enabled filters (None for the source's 0/0). */
    method Evaluate(lines: seq<ShapeLine>, angles: seq<ShapeAngle>, dots: seq<DotData>) returns (score: Option<real>)
      ensures score == EvaluateScore(filters, AngleScore(shapeAngles, totalAngleValue, angles), LineScore(shapeLines, lines), DotScore(|dotData|, |dots|))
    {
      var matchingScore := 0.0;
      var numOfFilterUsed := 0;
      if filters != 0 {
        if filters & AngleBased != 0 {
          var s := EvaluateAngles(angles);
          matchingScore := matchingScore + s;
          numOfFilterUsed := numOfFilterUsed + 1;
        }
        if filters & LineBased != 0 {
          var s := EvaluateLines(lines);
          matchingScore := matchingScore + s;
          numOfFilterUsed := numOfFilterUsed + 1;
        }
        if filters & DotBased != 0 {
          matchingScore := matchingScore + EvaluateDot(dots);
          numOfFilterUsed := numOfFilterUsed + 1;
        }
      }
      if numOfFilterUsed == 0 {
        return None;
      }
      return Some(matchingScore / numOfFilterUsed as real);
    }
  }
}
