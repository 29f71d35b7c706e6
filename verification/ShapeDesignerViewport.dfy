/**
 * SVirtualShapeDesignerViewport (SVirtualShapeDesignerViewport.cpp): the
 * editor canvas on which a virtual shape's dots are placed, selected,
 * moved, flattened and removed, together with the rubber-band selection
 * box FBoxSelection.
 *
 * Mouse positions arrive already converted to local coordinates. The
 * distance between two points needs a square root and is passed in as a
 * function. Marking the editor dirty and the undo transaction are not
 * modelled.
 */
module VirtualShapeDesigner {
  import opened Common
  import opened VirtualShape

  /** DotIsUnderLocation: a dot is hovered within 20 units. */
  const HoverRadius: real := 20.0

  /** EDrawTools (ClearPoint is declared but unused). */
  datatype DrawTool = FreeDraw | AddPoint | SelectPoint | RemovePoint | ClearPoint

  datatype MouseButton = LeftButton | RightButton | OtherButton

  /** How a box or click changes the selection: Shift adds, Alt subtracts, otherwise it replaces. */
  datatype SelectMode = AddToSelection | SubtractFromSelection | ReplaceSelection

  function ModeOf(shift: bool, alt: bool): SelectMode
  {
    if shift then AddToSelection else if alt then SubtractFromSelection else ReplaceSelection
  }

  function AbsVec(v: Vec2): (r: Vec2)
    ensures r.x >= 0.0 && r.y >= 0.0
  {
    Vec2(Abs(v.x), Abs(v.y))
  }

  function Midpoint(a: Vec2, b: Vec2): Vec2
  {
    Vec2((a.x + b.x) / 2.0, (a.y + b.y) / 2.0)
  }

  // ---------------------------------------------------------------- FBoxSelection

  /** FBoxSelection: the rubber band from Origin to the pointer. */
  class BoxSelection {
    var origin: Vec2
    var pointerLocation: Vec2
    var center: Vec2
    var extend: Vec2

    /** FBoxSelection(InOrigin): centre and extent zero (the pointer location is left unset by the source). */
    constructor(inOrigin: Vec2)
      ensures origin == inOrigin && center == Zero2 && extend == Zero2
    {
      origin, pointerLocation, center, extend := inOrigin, Zero2, Zero2, Zero2;
    }

    /** The state UpdatePointerLocation leaves: the half-diagonal and centre of the band. */
    predicate Tracking()
      reads this
    {
      extend == pointerLocation.Minus(origin).Scale(0.5) && center == Midpoint(origin, pointerLocation)
    }

    /** GetOrigin: the band's top-left corner. */
    function GetOrigin(): (r: Vec2)
      reads this
      ensures Tracking() ==> r == Vec2(Min(origin.x, pointerLocation.x), Min(origin.y, pointerLocation.y))
      ensures extend == Zero2 ==> r == origin
    {
      if extend.x < 0.0 && extend.y < 0.0 then pointerLocation
      else if extend.x < 0.0 then Vec2(pointerLocation.x, origin.y)
      else if extend.y < 0.0 then Vec2(origin.x, pointerLocation.y)
      else origin
    }

    function GetBoxExtend(): (r: Vec2)
      reads this
      ensures Tracking() ==> r == Vec2(Abs(pointerLocation.x - origin.x) / 2.0, Abs(pointerLocation.y - origin.y) / 2.0)
    {
      AbsVec(extend)
    }

    /** GetBoxSize: the band's width and height. */
    function GetBoxSize(): (r: Vec2)
      reads this
      ensures Tracking() ==> r == Vec2(Abs(pointerLocation.x - origin.x), Abs(pointerLocation.y - origin.y))
    {
      AbsVec(extend).Scale(2.0)
    }

    /** GetBoxMax: the band's bottom-right corner. */
    function GetBoxMax(): (r: Vec2)
      reads this
      ensures Tracking() ==> r == Vec2(Max(origin.x, pointerLocation.x), Max(origin.y, pointerLocation.y))
    {
      GetOrigin().Plus(GetBoxSize())
    }

    /** UpdatePointerLocation: the band now spans from Origin to `p`, centred between them. */
    method UpdatePointerLocation(p: Vec2)
      modifies this
      ensures origin == old(origin) && pointerLocation == p && Tracking()
    {
      pointerLocation := p;
      extend := pointerLocation.Minus(origin).Scale(0.5);
      if extend.x < 0.0 || extend.y < 0.0 {
        center := GetOrigin().Plus(AbsVec(extend));
        return;
      }
      center := GetOrigin().Plus(extend);
    }
  }

  /** DotInUnderBoxSelection on the band's centre and extent. */
  predicate InBox(location: Vec2, center: Vec2, extent: Vec2)
  {
    center.x - extent.x < location.x < center.x + extent.x &&
    center.y - extent.y < location.y < center.y + extent.y
  }

  /** DotInUnderBoxSelection: strictly inside the band (a dot on its edge is not selected). */
  predicate DotInUnderBoxSelection(location: Vec2, box: BoxSelection)
    reads box
  {
    InBox(location, box.center, box.GetBoxExtend())
  }

  /** On a band that follows the pointer, the test is strict containment between its corners. */
  lemma DotInBoxIsStrictContainment(location: Vec2, box: BoxSelection)
    requires box.Tracking()
    ensures DotInUnderBoxSelection(location, box) <==>
      box.GetOrigin().x < location.x < box.GetBoxMax().x && box.GetOrigin().y < location.y < box.GetBoxMax().y
  {
  }

  // ---------------------------------------------------------------- Dots

  /** DotIsUnderLocation. */
  predicate UnderLocation(dot: Vec2, location: Vec2, dist: (Vec2, Vec2) -> real)
  {
    dist(dot, location) <= HoverRadius
  }

  /** The last dot under `location`, or -1. */
  function LastHovered(dots: seq<DotData>, location: Vec2, dist: (Vec2, Vec2) -> real): (i: int)
    ensures -1 <= i < |dots|
    ensures i >= 0 ==> UnderLocation(dots[i].location, location, dist)
    ensures forall k :: i < k < |dots| ==> !UnderLocation(dots[k].location, location, dist)
  {
    if dots == [] then -1
    else if UnderLocation(dots[|dots| - 1].location, location, dist) then |dots| - 1
    else LastHovered(dots[..|dots| - 1], location, dist)
  }

  /** The search loop shared by selection, hovering and RemovePoint. */
  method FindLastHovered(dots: seq<DotData>, location: Vec2, dist: (Vec2, Vec2) -> real) returns (index: int)
    ensures index == LastHovered(dots, location, dist)
  {
    index := -1;
    var i := 0;
    while i < |dots|
      invariant i <= |dots|
      invariant index == LastHovered(dots[..i], location, dist)
    {
      assert dots[..i + 1][..i] == dots[..i];
      if UnderLocation(dots[i].location, location, dist) {
        index := i;
      }
      i := i + 1;
    }
    assert dots[..i] == dots;
  }

  /** Every dot deselected, nothing else changed. */
  function Deselected(dots: seq<DotData>): (r: seq<DotData>)
    ensures |r| == |dots| && forall i :: 0 <= i < |r| ==> r[i] == dots[i].(isSelected := false)
  {
    seq(|dots|, i requires 0 <= i < |dots| => dots[i].(isSelected := false))
  }

  /** The loop of ClearDotSelection. */
  method DeselectAll(dots: seq<DotData>) returns (r: seq<DotData>)
    ensures r == Deselected(dots)
  {
    r := dots;
    for i := 0 to |r|
      invariant |r| == |dots|
      invariant forall k :: 0 <= k < i ==> r[k] == dots[k].(isSelected := false)
      invariant forall k :: i <= k < |r| ==> r[k] == dots[k]
    {
      r := r[i := r[i].(isSelected := false)];
    }
  }

  // ---------------------------------------------------------------- Flatten

  /** The coordinate Flatten levels: Y for a horizontal flatten, X otherwise. */
  function Coord(v: Vec2, horizontally: bool): real
  {
    if horizontally then v.y else v.x
  }

  function WithCoord(v: Vec2, horizontally: bool, c: real): Vec2
  {
    if horizontally then v.(y := c) else v.(x := c)
  }

  /** The sum and number of the selected dots' levelled coordinates. */
  function SelectedSum(dots: seq<DotData>, horizontally: bool): real
  {
    if dots == [] then 0.0
    else
      var last := dots[|dots| - 1];
      SelectedSum(dots[..|dots| - 1], horizontally) + (if last.isSelected then Coord(last.location, horizontally) else 0.0)
  }

  function SelectedCount(dots: seq<DotData>): nat
  {
    if dots == [] then 0 else SelectedCount(dots[..|dots| - 1]) + (if dots[|dots| - 1].isSelected then 1 else 0)
  }

  /** Flatten: every selected dot moves to the mean of the selected coordinates; with none selected nothing moves. */
  function Flattened(dots: seq<DotData>, horizontally: bool): (r: seq<DotData>)
    ensures |r| == |dots|
  {
    if SelectedCount(dots) == 0 then dots
    else
      var mean := SelectedSum(dots, horizontally) / SelectedCount(dots) as real;
      seq(|dots|, i requires 0 <= i < |dots| =>
        if dots[i].isSelected then dots[i].(location := WithCoord(dots[i].location, horizontally, mean)) else dots[i])
  }

  /** The two loops of Flatten. */
  method FlattenDots(dots: seq<DotData>, horizontally: bool) returns (r: seq<DotData>)
    ensures r == Flattened(dots, horizontally)
  {
    var average := 0.0;
    var divisor := 0;
    for i := 0 to |dots|
      invariant average == SelectedSum(dots[..i], horizontally) && divisor == SelectedCount(dots[..i])
    {
      assert dots[..i + 1][..i] == dots[..i];
      if dots[i].isSelected {
        average := average + Coord(dots[i].location, horizontally);
        divisor := divisor + 1;
      }
    }
    assert dots[..|dots|] == dots;
    if divisor == 0 {
      // The source divides 0 by 0 here, but with no dot selected the quotient is never stored.
      return dots;
    }
    average := average / divisor as real;
    r := dots;
    for i := 0 to |r|
      invariant |r| == |dots|
      invariant forall k :: 0 <= k < i ==> r[k] == Flattened(dots, horizontally)[k]
      invariant forall k :: i <= k < |r| ==> r[k] == dots[k]
    {
      if r[i].isSelected {
        r := r[i := r[i].(location := WithCoord(r[i].location, horizontally, average))];
      }
    }
  }

  /** When every selected coordinate equals `c`, the sum is `c` times their number. */
  lemma {:induction false} SumOfEqual(dots: seq<DotData>, horizontally: bool, c: real)
    requires forall i :: 0 <= i < |dots| && dots[i].isSelected ==> Coord(dots[i].location, horizontally) == c
    ensures SelectedSum(dots, horizontally) == SelectedCount(dots) as real * c
  {
    if dots != [] {
      SumOfEqual(dots[..|dots| - 1], horizontally, c);
    }
  }

  /** Flattening keeps which dots are selected. */
  lemma {:induction false} FlattenedKeepsSelection(dots: seq<DotData>, horizontally: bool, k: nat)
    requires k <= |dots|
    ensures SelectedCount(Flattened(dots, horizontally)[..k]) == SelectedCount(dots[..k])
  {
    if k > 0 {
      FlattenedKeepsSelection(dots, horizontally, k - 1);
      assert Flattened(dots, horizontally)[..k][..k - 1] == Flattened(dots, horizontally)[..k - 1];
      assert dots[..k][..k - 1] == dots[..k - 1];
    }
  }

  /**
   * Flatten levels the selected dots on their mean: each selected dot
   * changes only the levelled coordinate, every other dot is unchanged,
   * the selection is the same, and the sum of the levelled coordinates
   * (so their mean) is preserved.
   */
  lemma FlattenSpec(dots: seq<DotData>, horizontally: bool)
    ensures var r := Flattened(dots, horizontally);
      (forall i :: 0 <= i < |dots| && !dots[i].isSelected ==> r[i] == dots[i]) &&
      (forall i :: 0 <= i < |dots| && dots[i].isSelected ==>
        r[i].isSelected && Coord(r[i].location, !horizontally) == Coord(dots[i].location, !horizontally) &&
        r[i] == dots[i].(location := r[i].location)) &&
      (forall i, j :: 0 <= i < |dots| && 0 <= j < |dots| && dots[i].isSelected && dots[j].isSelected ==>
        Coord(r[i].location, horizontally) == Coord(r[j].location, horizontally)) &&
      SelectedCount(r) == SelectedCount(dots) &&
      SelectedSum(r, horizontally) == SelectedSum(dots, horizontally)
  {
    var r := Flattened(dots, horizontally);
    FlattenedKeepsSelection(dots, horizontally, |dots|);
    assert r[..|r|] == r && dots[..|dots|] == dots;
    var n := SelectedCount(dots);
    if n > 0 {
      var mean := SelectedSum(dots, horizontally) / n as real;
      assert forall i :: 0 <= i < |dots| && dots[i].isSelected ==> Coord(r[i].location, horizontally) == mean;
      SumOfEqual(r, horizontally, mean);
    } else {
      NoneSelected(dots);
    }
  }

  /** No dot counts as selected only when none is. */
  lemma {:induction false} NoneSelected(dots: seq<DotData>)
    requires SelectedCount(dots) == 0
    ensures forall i :: 0 <= i < |dots| ==> !dots[i].isSelected
  {
    if dots != [] {
      NoneSelected(dots[..|dots| - 1]);
      assert forall i :: 0 <= i < |dots| - 1 ==> dots[..|dots| - 1][i] == dots[i];
    }
  }

  /** Flattening twice is flattening once. */
  lemma FlattenIdempotent(dots: seq<DotData>, horizontally: bool)
    ensures Flattened(Flattened(dots, horizontally), horizontally) == Flattened(dots, horizontally)
  {
    var r := Flattened(dots, horizontally);
    FlattenSpec(dots, horizontally);
    var n := SelectedCount(dots);
    if n > 0 {
      var mean := SelectedSum(dots, horizontally) / n as real;
      SumOfEqual(r, horizontally, mean);
      assert SelectedSum(r, horizontally) / n as real == mean;
    }
  }

  // ---------------------------------------------------------------- Adding and removing

  /** OnAddEnded, left button: the new dot starts a stroke when there is none or the last one ended. */
  function AddDot(dots: seq<DotData>, location: Vec2): seq<DotData>
  {
    dots + [if dots == [] || dots[|dots| - 1].isEndPoint then StartDot(location) else PlainDot(location)]
  }

  /** A new dot is a start point iff the list is empty or the last dot is an end point. */
  lemma AddDotSpec(dots: seq<DotData>, location: Vec2)
    ensures var r := AddDot(dots, location);
      |r| == |dots| + 1 && r[..|dots|] == dots && r[|dots|].location == location &&
      !r[|dots|].isEndPoint && !r[|dots|].isSelected &&
      (r[|dots|].isStartPoint <==> dots == [] || dots[|dots| - 1].isEndPoint)
  {
  }

  /** OnAddEnded, right button: the last dot ends its stroke unless it is the stroke's start. */
  function EndStroke(dots: seq<DotData>): (r: seq<DotData>)
    ensures |r| == |dots|
  {
    if dots != [] && !dots[|dots| - 1].isStartPoint then dots[..|dots| - 1] + [dots[|dots| - 1].(isEndPoint := true)]
    else dots
  }

  /** RemovePoint: the last dot within 20 units goes, or nothing changes. */
  function WithoutHovered(dots: seq<DotData>, location: Vec2, dist: (Vec2, Vec2) -> real): (r: seq<DotData>)
  {
    var i := LastHovered(dots, location, dist);
    if i >= 0 then dots[..i] + dots[i + 1..] else dots
  }

  /**
   * RemovePoint removes exactly one dot, the last one under the cursor,
   * keeping the others in order; with none under the cursor nothing
   * changes.
   */
  lemma WithoutHoveredSpec(dots: seq<DotData>, location: Vec2, dist: (Vec2, Vec2) -> real)
    ensures var r := WithoutHovered(dots, location, dist);
      var i := LastHovered(dots, location, dist);
      (i == -1 <==> forall k :: 0 <= k < |dots| ==> !UnderLocation(dots[k].location, location, dist)) &&
      (i == -1 ==> r == dots) &&
      (i >= 0 ==>
        |r| == |dots| - 1 && UnderLocation(dots[i].location, location, dist) &&
        (forall k :: 0 <= k < i ==> r[k] == dots[k]) &&
        (forall k :: i <= k < |r| ==> r[k] == dots[k + 1] && !UnderLocation(r[k].location, location, dist)))
  {
  }

  // ---------------------------------------------------------------- Grid snapping

  /** FMath::RoundToInt: round half up. */
  function RoundToInt(x: real): int
  {
    (x + 0.5).Floor
  }

  /** The grid cell nearest to `v` on a grid of spacing `m` (RoundToInt(v / m)). */
  function NearestCell(v: real, m: int): (q: int)
    requires m > 0
    ensures v - m as real / 2.0 < (q * m) as real <= v + m as real / 2.0
  {
    var q := RoundToInt(v / m as real);
    CellBounds(v, m, q);
    q
  }

  /** Scaling the rounding bounds of v / m back by m. */
  lemma CellBounds(v: real, m: int, q: int)
    requires m > 0 && q == RoundToInt(v / m as real)
    ensures v - m as real / 2.0 < (q * m) as real <= v + m as real / 2.0
  {
    var w := v / m as real;
    assert w - 0.5 < q as real <= w + 0.5;
    MulLess(w - 0.5, q as real, m as real);
    MulLeq(q as real, w + 0.5, m as real);
    assert w * m as real == v;
    assert (q * m) as real == q as real * m as real;
  }

  lemma MulLess(a: real, b: real, m: real)
    requires m > 0.0 && a < b
    ensures a * m < b * m
  {
  }

  lemma MulLeq(a: real, b: real, m: real)
    requires m > 0.0 && a <= b
    ensures a * m <= b * m
  {
  }

  /**
   * One axis of GetSnappingPosition, as a grid cell: with S the nearest
   * multiple of m and L = S + m, L is taken when m - S > L - m, that is
   * when S < m / 2. So every coordinate below half a cell, negative ones
   * included, snaps one cell above its nearest grid line (on a grid of 10,
   * -100 snaps to -90); every other coordinate snaps to its nearest line.
   * BelowHalfCellMovesUp states this for all inputs.
   */
  function SnapCell(v: real, m: int): (k: int)
    requires m > 0
    ensures v - m as real / 2.0 < (k * m) as real <= v + 3.0 * m as real / 2.0
    ensures v >= m as real / 2.0 ==> v - m as real / 2.0 < (k * m) as real <= v + m as real / 2.0
  {
    var q := NearestCell(v, m);
    var smaller := q * m;
    var larger := smaller + m;
    assert (q + 1) * m == larger;
    if m - smaller > larger - m then q + 1 else q
  }

  /**
   * The rule of SnapCell in full: a coordinate below half a cell moves one
   * cell above its nearest grid line, any other stays on that line.
   */
  lemma BelowHalfCellMovesUp(v: real, m: int)
    requires m > 0
    ensures v < m as real / 2.0 ==> SnapCell(v, m) == NearestCell(v, m) + 1
    ensures v >= m as real / 2.0 ==> SnapCell(v, m) == NearestCell(v, m)
  {
    var q := NearestCell(v, m);
    var w := v / m as real;
    assert w * m as real == v;
    if v < m as real / 2.0 {
      MulLess(w, 0.5, m as real);
      assert q <= 0;
    } else {
      MulLeq(0.5, w, m as real);
      assert q >= 1;
    }
  }

  /** On a grid of 10, a point on the line -100 snaps one cell up, to -90. */
  lemma NegativeLineSnapsUp()
    ensures NearestCell(-100.0, 10) == -10
    ensures SnapCell(-100.0, 10) == -9
  {
  }

  /**
   * GetSnappingPosition as written: the Y axis takes its larger
   * candidate from the X axis' nearest multiple.
   */
  function GetSnappingPositionAsWritten(location: Vec2, m: int): (r: Vec2)
    requires m > 0
    ensures r.x == (SnapCell(location.x, m) * m) as real
  {
    var smallerX := NearestCell(location.x, m) * m;
    var largerX := smallerX + m;
    var x := if m - smallerX > largerX - m then largerX else smallerX;
    var smallerY := NearestCell(location.y, m) * m;
    var largerY := smallerX + m;
    var y := if m - smallerY > largerY - m then largerY else smallerY;
    assert (NearestCell(location.x, m) + 1) * m == largerX;
    Vec2(x as real, y as real)
  }

  /** On a grid of 10, the point (-100, 50) snaps as written to (-90, -90): Y moves 140 units. */
  lemma SnappedYFollowsX()
    ensures GetSnappingPositionAsWritten(Vec2(-100.0, 50.0), 10) == Vec2(-90.0, -90.0)
    ensures GetSnappingPosition(Vec2(-100.0, 50.0), 10) == Vec2(-90.0, 50.0)
  {
    assert -100.0 / 10.0 == -10.0 && 50.0 / 10.0 == 5.0;
    assert RoundToInt(-10.0) == -10 && RoundToInt(5.0) == 5;
  }

  /** GetSnappingPosition with Y snapped by the same rule as X, from its own coordinate. */
  function GetSnappingPosition(location: Vec2, m: int): (r: Vec2)
    requires m > 0
  {
    Vec2((SnapCell(location.x, m) * m) as real, (SnapCell(location.y, m) * m) as real)
  }

  /**
   * Each snapped coordinate is a grid line, depends only on its own input
   * coordinate, and lies less than half a cell below it and at most one
   * and a half cells above it (at most half a cell when the coordinate is
   * at least half a cell).
   */
  lemma SnappingSpec(location: Vec2, m: int)
    requires m > 0
    ensures var r := GetSnappingPosition(location, m);
      r.x == (SnapCell(location.x, m) * m) as real && r.y == (SnapCell(location.y, m) * m) as real &&
      location.x - m as real / 2.0 < r.x <= location.x + 3.0 * m as real / 2.0 &&
      location.y - m as real / 2.0 < r.y <= location.y + 3.0 * m as real / 2.0 &&
      (location.y >= m as real / 2.0 ==> r.y <= location.y + m as real / 2.0) &&
      forall other: real :: GetSnappingPosition(location.(x := other), m).y == r.y
  {
  }

  /** Every selected dot moved by `-delta`. */
  function Translated(dots: seq<DotData>, delta: Vec2): (r: seq<DotData>)
    ensures |r| == |dots|
  {
    seq(|dots|, i requires 0 <= i < |dots| =>
      if dots[i].isSelected then dots[i].(location := dots[i].location.Minus(delta)) else dots[i])
  }

  /** Every selected dot moved by `-delta` and snapped to the grid. */
  function TranslatedSnapped(dots: seq<DotData>, delta: Vec2, m: int): (r: seq<DotData>)
    requires m > 0
    ensures |r| == |dots|
  {
    seq(|dots|, i requires 0 <= i < |dots| =>
      if dots[i].isSelected then dots[i].(location := GetSnappingPosition(dots[i].location.Minus(delta), m)) else dots[i])
  }

  /** A drag moves only the selected dots, and only their locations. */
  lemma DragMovesOnlySelected(dots: seq<DotData>, delta: Vec2, m: int)
    requires m > 0
    ensures forall i :: 0 <= i < |dots| ==>
      Translated(dots, delta)[i] == dots[i].(location := Translated(dots, delta)[i].location) &&
      TranslatedSnapped(dots, delta, m)[i] == dots[i].(location := TranslatedSnapped(dots, delta, m)[i].location)
    ensures forall i :: 0 <= i < |dots| && !dots[i].isSelected ==>
      Translated(dots, delta)[i] == dots[i] && TranslatedSnapped(dots, delta, m)[i] == dots[i]
  {
  }

  /** The band's effect on the selection: inside dots are added, removed, or become the whole selection. */
  function BoxSelected(dots: seq<DotData>, center: Vec2, extent: Vec2, mode: SelectMode): (r: seq<DotData>)
    ensures |r| == |dots|
  {
    seq(|dots|, i requires 0 <= i < |dots| =>
      var inside := InBox(dots[i].location, center, extent);
      dots[i].(isSelected :=
        if inside then mode != SubtractFromSelection
        else mode != ReplaceSelection && dots[i].isSelected))
  }

  /** Only the last dot under the pointer is hovered. */
  function Hovered(dots: seq<DotData>, location: Vec2, dist: (Vec2, Vec2) -> real): (r: seq<DotData>)
    ensures |r| == |dots|
  {
    var h := LastHovered(dots, location, dist);
    seq(|dots|, i requires 0 <= i < |dots| => dots[i].(isHovered := i == h))
  }

  /** The hover pass of OnSelectMoved. */
  method HoverDots(dots: seq<DotData>, location: Vec2, dist: (Vec2, Vec2) -> real) returns (r: seq<DotData>)
    ensures r == Hovered(dots, location, dist)
  {
    var h := FindLastHovered(dots, location, dist);
    r := dots;
    for i := 0 to |r|
      invariant |r| == |dots|
      invariant forall k :: 0 <= k < i ==> r[k] == dots[k].(isHovered := false)
      invariant forall k :: i <= k < |r| ==> r[k] == dots[k]
    {
      r := r[i := r[i].(isHovered := false)];
    }
    if h != -1 {
      r := r[h := r[h].(isHovered := true)];
    }
  }

  /** The selection pass of OnSelectMoved while the band is dragged. */
  method SelectInBox(dots: seq<DotData>, box: BoxSelection, mode: SelectMode) returns (r: seq<DotData>)
    ensures r == BoxSelected(dots, box.center, box.GetBoxExtend(), mode)
  {
    r := dots;
    for i := 0 to |r|
      invariant |r| == |dots|
      invariant forall k :: 0 <= k < i ==> r[k] == BoxSelected(dots, box.center, box.GetBoxExtend(), mode)[k]
      invariant forall k :: i <= k < |r| ==> r[k] == dots[k]
    {
      if DotInUnderBoxSelection(r[i].location, box) {
        if mode != SubtractFromSelection {
          r := r[i := r[i].(isSelected := true)];
        } else {
          r := r[i := r[i].(isSelected := false)];
        }
      } else if mode == ReplaceSelection {
        r := r[i := r[i].(isSelected := false)];
      }
    }
  }

  /** The moving pass of OnSelectMoved: selected dots follow the pointer, snapped when the grid is on. */
  method MoveSelected(dots: seq<DotData>, delta: Vec2, snap: bool, m: int) returns (r: seq<DotData>)
    requires snap ==> m > 0
    ensures !snap ==> r == Translated(dots, delta)
    ensures snap ==> r == TranslatedSnapped(dots, delta, m)
  {
    r := dots;
    for i := 0 to |r|
      invariant |r| == |dots|
      invariant forall k :: 0 <= k < i ==> r[k] == (if snap then TranslatedSnapped(dots, delta, m)[k] else Translated(dots, delta)[k])
      invariant forall k :: i <= k < |r| ==> r[k] == dots[k]
    {
      if r[i].isSelected {
        var moved := r[i].location.Minus(delta);
        if snap {
          moved := GetSnappingPosition(moved, m);
        }
        r := r[i := r[i].(location := moved)];
      }
    }
  }

  // ---------------------------------------------------------------- The viewport

  class SVirtualShapeDesignerViewport {
    var dotData: seq<DotData>
    var selectedTool: DrawTool
    var gridSnappingEnabled: bool
    var gridSpacingValue: int
    var dotSelected: bool
    var boxSelection: bool
    var isPanning: bool
    var showNextLine: bool
    var boxSelectionData: BoxSelection
    var oldMouseLocation: Vec2
    var panningStartLocation: Vec2
    var mousePosition: Vec2

    /** The grid spacing is one of the toolbar's values, all positive. */
    predicate Valid()
      reads this
    {
      gridSpacingValue > 0
    }

    /** Construct and GenerateDataFromVirtualShapeAsset: the shape's dots, the select tool, a 10-unit grid with snapping off. */
    constructor(shapeDots: seq<DotData>)
      ensures Valid()
      ensures dotData == shapeDots && selectedTool == SelectPoint
      ensures gridSpacingValue == 10 && !gridSnappingEnabled && !boxSelection
    {
      dotData := shapeDots;
      selectedTool := SelectPoint;
      gridSpacingValue, gridSnappingEnabled := 10, false;
      dotSelected, boxSelection, isPanning, showNextLine := false, false, false, false;
      boxSelectionData := new BoxSelection(Zero2);
      oldMouseLocation, panningStartLocation, mousePosition := Zero2, Zero2, Zero2;
    }

    /** ClearDotSelection: no dot stays selected; nothing else changes. */
    method ClearDotSelection()
      modifies this`dotData
      ensures dotData == Deselected(old(dotData))
    {
      dotData := DeselectAll(dotData);
    }

    /** ChangeToolMode: the selection is cleared and the tool changes. */
    method ChangeToolMode(mode: DrawTool)
      modifies this`dotData, this`selectedTool
      ensures dotData == Deselected(old(dotData)) && selectedTool == mode
    {
      ClearDotSelection();
      selectedTool := mode;
    }

    method ClearDraw()
      modifies this`dotData
      ensures dotData == []
    {
      dotData := [];
    }

    method Flatten(horizontally: bool)
      modifies this`dotData
      ensures dotData == Flattened(old(dotData), horizontally)
    {
      dotData := FlattenDots(dotData, horizontally);
    }

    /** RemovePoint: the last dot under the cursor is removed and the drag selection dropped. */
    method RemovePoint(location: Vec2, dist: (Vec2, Vec2) -> real)
      modifies this`dotData, this`dotSelected
      ensures dotData == WithoutHovered(old(dotData), location, dist)
      ensures dotSelected == (old(dotSelected) && LastHovered(old(dotData), location, dist) == -1)
    {
      var index := FindLastHovered(dotData, location, dist);
      if index != -1 {
        dotData := dotData[..index] + dotData[index + 1..];
        dotSelected := false;
      }
    }

    /** OnAddEnded: the left button adds a dot (snapped when the grid is on); the right button ends the stroke. */
    method OnAddEnded(button: MouseButton, location: Vec2) returns (handled: bool)
      requires Valid()
      modifies this`dotData, this`showNextLine
      ensures var at := if gridSnappingEnabled then GetSnappingPosition(location, gridSpacingValue) else location;
        button == LeftButton ==> dotData == AddDot(old(dotData), at) && showNextLine && handled
      ensures button == RightButton ==>
        dotData == EndStroke(old(dotData)) &&
        handled == (old(dotData) != [] && !old(dotData)[|old(dotData)| - 1].isStartPoint) &&
        showNextLine == (old(showNextLine) && !handled)
      ensures button == OtherButton ==> dotData == old(dotData) && showNextLine == old(showNextLine) && !handled
    {
      handled := false;
      if button == LeftButton {
        var at := if gridSnappingEnabled then GetSnappingPosition(location, gridSpacingValue) else location;
        if |dotData| == 0 || dotData[|dotData| - 1].isEndPoint {
          dotData := dotData + [StartDot(at)];
        } else {
          dotData := dotData + [PlainDot(at)];
        }
        showNextLine := true;
        return true;
      }
      if button == RightButton {
        if |dotData| > 0 && !dotData[|dotData| - 1].isStartPoint {
          dotData := dotData[..|dotData| - 1] + [dotData[|dotData| - 1].(isEndPoint := true)];
          showNextLine := false;
          return true;
        }
      }
    }

    /**
     * OnSelectStarted, left button: a click on a dot adds it to, removes it
     * from, or (already selected or not) makes it the drag selection; a
     * click elsewhere starts a selection band at the cursor.
     */
    method OnSelectStarted(button: MouseButton, location: Vec2, shift: bool, alt: bool, dist: (Vec2, Vec2) -> real)
      returns (handled: bool)
      modifies this`dotData, this`dotSelected, this`boxSelection, this`boxSelectionData, this`panningStartLocation
      ensures handled == (button == LeftButton)
      ensures panningStartLocation == if button == LeftButton && old(dotData) != [] then location else old(panningStartLocation)
      ensures var h := LastHovered(old(dotData), location, dist);
        button == LeftButton && h >= 0 ==>
          boxSelection == old(boxSelection) && boxSelectionData == old(boxSelectionData) &&
          (shift ==> dotData == old(dotData)[h := old(dotData)[h].(isSelected := true)] && dotSelected == old(dotSelected)) &&
          (!shift && alt ==> dotData == old(dotData)[h := old(dotData)[h].(isSelected := false)] && dotSelected == old(dotSelected)) &&
          (!shift && !alt && old(dotData)[h].isSelected ==> dotData == old(dotData) && dotSelected) &&
          (!shift && !alt && !old(dotData)[h].isSelected ==>
            dotData == Deselected(old(dotData))[h := old(dotData)[h].(isSelected := true)] && dotSelected)
      ensures button == LeftButton && LastHovered(old(dotData), location, dist) == -1 ==>
        dotData == old(dotData) && dotSelected == old(dotSelected) &&
        boxSelection && fresh(boxSelectionData) && boxSelectionData.origin == location &&
        boxSelectionData.extend == Zero2
      ensures button != LeftButton ==>
        dotData == old(dotData) && dotSelected == old(dotSelected) &&
        boxSelection == old(boxSelection) && boxSelectionData == old(boxSelectionData)
    {
      if button != LeftButton {
        return false;
      }
      if |dotData| > 0 {
        panningStartLocation := location;
        var h := FindLastHovered(dotData, location, dist);
        if h != -1 {
          if shift {
            dotData := dotData[h := dotData[h].(isSelected := true)];
            return true;
          }
          if alt {
            dotData := dotData[h := dotData[h].(isSelected := false)];
            return true;
          }
          if dotData[h].isSelected {
            dotSelected := true;
            return true;
          }
          ClearDotSelection();
          dotData := dotData[h := dotData[h].(isSelected := true)];
          dotSelected := true;
          return true;
        }
      }
      boxSelection := true;
      boxSelectionData := new BoxSelection(location);
      return true;
    }

    /** OnDragDetected with the select tool: dragging a selected dot starts moving the selection. */
    method OnDragDetected(location: Vec2) returns (handled: bool)
      modifies this`oldMouseLocation, this`isPanning
      ensures handled == (selectedTool == SelectPoint)
      ensures isPanning == (old(isPanning) || (handled && dotSelected))
      ensures oldMouseLocation == if handled && dotSelected then location else old(oldMouseLocation)
    {
      if selectedTool == SelectPoint {
        if dotSelected {
          oldMouseLocation := location;
          isPanning := true;
        }
        return true;
      }
      return false;
    }

    /**
     * OnSelectMoved: while moving the selection, the selected dots follow
     * the pointer (on the grid, they jump once the pointer has moved a
     * whole cell); while dragging a band, its inside changes the selection;
     * otherwise only the last dot under the pointer is hovered.
     */
    method OnSelectMoved(location: Vec2, shift: bool, alt: bool, dist: (Vec2, Vec2) -> real)
      requires Valid()
      modifies this`dotData, this`oldMouseLocation, this`panningStartLocation, boxSelectionData
      ensures old(isPanning) && !gridSnappingEnabled ==>
        dotData == Translated(old(dotData), old(oldMouseLocation).Minus(location)) && oldMouseLocation == location
      ensures var snapDelta := old(panningStartLocation).Minus(location);
        var jump := Abs(snapDelta.x) >= gridSpacingValue as real || Abs(snapDelta.y) >= gridSpacingValue as real;
        old(isPanning) && gridSnappingEnabled ==>
          oldMouseLocation == location &&
          dotData == (if jump then TranslatedSnapped(old(dotData), snapDelta, gridSpacingValue) else old(dotData)) &&
          panningStartLocation == (if jump then location else old(panningStartLocation))
      ensures !old(isPanning) && boxSelection ==>
        boxSelectionData.Tracking() && boxSelectionData.origin == old(boxSelectionData.origin) &&
        boxSelectionData.pointerLocation == location &&
        dotData == BoxSelected(old(dotData), boxSelectionData.center, boxSelectionData.GetBoxExtend(), ModeOf(shift, alt))
      ensures !old(isPanning) && !boxSelection ==> dotData == Hovered(old(dotData), location, dist)
    {
      if isPanning {
        var deltaMove := oldMouseLocation.Minus(location);
        oldMouseLocation := location;
        if gridSnappingEnabled {
          var snapDelta := panningStartLocation.Minus(location);
          if Abs(snapDelta.x) >= gridSpacingValue as real || Abs(snapDelta.y) >= gridSpacingValue as real {
            dotData := MoveSelected(dotData, snapDelta, true, gridSpacingValue);
            panningStartLocation := location;
          }
        } else {
          dotData := MoveSelected(dotData, deltaMove, false, 0);
        }
        return;
      }
      if boxSelection {
        boxSelectionData.UpdatePointerLocation(location);
        dotData := SelectInBox(dotData, boxSelectionData, ModeOf(shift, alt));
        return;
      }
      dotData := HoverDots(dotData, location, dist);
    }

    /** OnSelectEnded: moving, the drag selection and the band all end. */
    method OnSelectEnded()
      modifies this`isPanning, this`dotSelected, this`boxSelection
      ensures !isPanning && !dotSelected && !boxSelection
    {
      isPanning, dotSelected, boxSelection := false, false, false;
    }
  }
}
