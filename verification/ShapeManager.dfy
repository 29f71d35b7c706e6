/**
 * UShapeManager (ShapeManager.cpp): the touch listener that records what
 * the user draws with the first finger and, once the drawing is finished,
 * recognises it against its virtual shapes.
 *
 * Recording (OnTouchStarted/Moved/Ended) is modelled twice: as functions
 * on a `Recorder` value, about which the recording invariants are proved,
 * and as methods of the class whose contracts tie the new state to those
 * functions. Compute simplifies the drawing to its key dots, derives lines
 * and corner angles exactly as a virtual shape does (VirtualShape's
 * GeometryOf), scores every shape and broadcasts the outcome; the two
 * broadcasts are recorded in the `detections` log (Some(i): success with
 * virtual shape i; None: failure).
 *
 * The screen-to-local conversion of a touch is done by the caller: the
 * methods receive local coordinates. Normalising a vector and the distance
 * between two points need a square root, the corner angle an arc cosine:
 * they are passed in as functions, as in VirtualShape.
 */
module ShapeRecognition {
  import opened Common
  import opened VirtualControlTypes
  import opened VirtualShape

  /** The score the restricted shape must exceed. */
  const RestrictedMatchScore: real := 60.0

  /** A stroke's closing dot. */
  function EndDot(location: Vec2): DotData
  {
    DotData(location, false, false, false, true)
  }

  // ---------------------------------------------------------------- Recording

  /** The recording state: UserDrawing and the three flags. */
  datatype Recorder = Recorder(userDrawing: seq<DotData>, isComputing: bool, isDrawing: bool, launchTimer: bool)

  /**
   * OnTouchStarted: only the first finger draws, and not while a drawing is
   * being recognised. A new stroke is appended to the pending drawing when
   * the recognition timer was running, and starts a new drawing otherwise.
   */
  function TouchStarted(r: Recorder, pointer: int, coord: Vec2): (r': Recorder)
    ensures pointer != 0 || r.isComputing ==> r' == r
    ensures pointer == 0 && !r.isComputing ==>
      r'.isDrawing && !r'.launchTimer && |r'.userDrawing| > 0 && r'.userDrawing[|r'.userDrawing| - 1] == StartDot(coord) &&
      r'.userDrawing[..|r'.userDrawing| - 1] == (if r.launchTimer then r.userDrawing else [])
    ensures r'.isComputing == r.isComputing
  {
    if pointer != 0 || r.isComputing then r
    else
      var kept := if r.launchTimer then r.userDrawing else [];
      r.(userDrawing := kept + [StartDot(coord)], isDrawing := true, launchTimer := false)
  }

  /**
   * OnTouchMoved: while drawing, a dot is added only when it is farther
   * than `dotDistance` from the last recorded one.
   */
  function TouchMoved(r: Recorder, pointer: int, coord: Vec2, dotDistance: real, dist: (Vec2, Vec2) -> real): (r': Recorder)
    requires r.isDrawing ==> r.userDrawing != []
    ensures r'.isComputing == r.isComputing && r'.isDrawing == r.isDrawing && r'.launchTimer == r.launchTimer
    ensures r'.userDrawing == r.userDrawing || r'.userDrawing == r.userDrawing + [PlainDot(coord)]
    ensures r'.userDrawing != r.userDrawing <==>
      pointer == 0 && r.isDrawing && dist(r.userDrawing[|r.userDrawing| - 1].location, coord) > dotDistance
  {
    if pointer == 0 && r.isDrawing && dist(r.userDrawing[|r.userDrawing| - 1].location, coord) > dotDistance then
      r.(userDrawing := r.userDrawing + [PlainDot(coord)])
    else r
  }

  /**
   * OnTouchEnded: the stroke ends; if the finger lifts within `dotDistance`
   * of the drawing's first dot, the last dot moves onto that first dot. The
   * last dot becomes an end point and the recognition timer starts.
   */
  function TouchEnded(r: Recorder, pointer: int, coord: Vec2, dotDistance: real, dist: (Vec2, Vec2) -> real): Recorder
    requires r.isDrawing ==> r.userDrawing != []
  {
    if pointer == 0 && r.isDrawing then
      var ud := r.userDrawing;
      var last := ud[|ud| - 1];
      var location := if dist(ud[0].location, coord) <= dotDistance then ud[0].location else last.location;
      r.(userDrawing := ud[..|ud| - 1] + [last.(location := location, isEndPoint := true)], isDrawing := false, launchTimer := true)
    else r
  }

  /** An end near the first dot snaps onto it, and the last dot is the stroke's end. */
  lemma TouchEndedSpec(r: Recorder, pointer: int, coord: Vec2, dotDistance: real, dist: (Vec2, Vec2) -> real)
    requires r.isDrawing ==> r.userDrawing != []
    ensures var r' := TouchEnded(r, pointer, coord, dotDistance, dist);
      if pointer == 0 && r.isDrawing then
        var ud := r.userDrawing;
        var n := |ud|;
        |r'.userDrawing| == n && r'.userDrawing[..n - 1] == ud[..n - 1] &&
        r'.userDrawing[n - 1].isEndPoint &&
        r'.userDrawing[n - 1].isStartPoint == ud[n - 1].isStartPoint &&
        (dist(ud[0].location, coord) <= dotDistance ==> r'.userDrawing[n - 1].location == ud[0].location) &&
        (dist(ud[0].location, coord) > dotDistance ==> r'.userDrawing[n - 1].location == ud[n - 1].location) &&
        !r'.isDrawing && r'.launchTimer && r'.isComputing == r.isComputing
      else r' == r
  {
  }

  /**
   * A well-formed recording: a drawing in progress has a last dot, every
   * drawing begins with a start point, and every dot recorded inside a
   * stroke is more than `dotDistance` from the one before it.
   */
  predicate WellFormed(r: Recorder, dotDistance: real, dist: (Vec2, Vec2) -> real)
  {
    var ud := r.userDrawing;
    (r.isDrawing ==> ud != [] && !ud[|ud| - 1].isEndPoint) &&
    (ud != [] ==> ud[0].isStartPoint) &&
    forall i :: 0 < i < |ud| && !ud[i].isStartPoint && !ud[i].isEndPoint ==> dist(ud[i - 1].location, ud[i].location) > dotDistance
  }

  /** A touch start keeps the drawing well formed. */
  lemma TouchStartedKeepsWellFormed(r: Recorder, pointer: int, coord: Vec2, dotDistance: real, dist: (Vec2, Vec2) -> real)
    requires WellFormed(r, dotDistance, dist)
    ensures WellFormed(TouchStarted(r, pointer, coord), dotDistance, dist)
  {
    var s := TouchStarted(r, pointer, coord);
    if pointer == 0 && !r.isComputing {
      var kept := if r.launchTimer then r.userDrawing else [];
      assert s.userDrawing == kept + [StartDot(coord)];
      forall i | 0 < i < |s.userDrawing| && !s.userDrawing[i].isStartPoint && !s.userDrawing[i].isEndPoint
        ensures dist(s.userDrawing[i - 1].location, s.userDrawing[i].location) > dotDistance
      {
        assert i < |kept| && s.userDrawing[i] == kept[i] && s.userDrawing[i - 1] == kept[i - 1];
      }
    }
  }

  /** A move keeps the drawing well formed: a new dot is farther than `dotDistance` from the last. */
  lemma TouchMovedKeepsWellFormed(r: Recorder, pointer: int, coord: Vec2, dotDistance: real, dist: (Vec2, Vec2) -> real)
    requires WellFormed(r, dotDistance, dist)
    ensures WellFormed(TouchMoved(r, pointer, coord, dotDistance, dist), dotDistance, dist)
  {
    var ud := r.userDrawing;
    var m := TouchMoved(r, pointer, coord, dotDistance, dist);
    if m.userDrawing != ud {
      forall i | 0 < i < |m.userDrawing| && !m.userDrawing[i].isStartPoint && !m.userDrawing[i].isEndPoint
        ensures dist(m.userDrawing[i - 1].location, m.userDrawing[i].location) > dotDistance
      {
        if i < |ud| {
          assert m.userDrawing[i] == ud[i] && m.userDrawing[i - 1] == ud[i - 1];
        }
      }
    }
  }

  /** A touch end keeps the drawing well formed: only the last dot moves, and it becomes an end point. */
  lemma TouchEndedKeepsWellFormed(r: Recorder, pointer: int, coord: Vec2, dotDistance: real, dist: (Vec2, Vec2) -> real)
    requires WellFormed(r, dotDistance, dist)
    ensures WellFormed(TouchEnded(r, pointer, coord, dotDistance, dist), dotDistance, dist)
  {
    var ud := r.userDrawing;
    var e := TouchEnded(r, pointer, coord, dotDistance, dist);
    if pointer == 0 && r.isDrawing {
      var n := |ud|;
      assert |e.userDrawing| == n && e.userDrawing[..n - 1] == ud[..n - 1];
      forall i | 0 < i < n && !e.userDrawing[i].isStartPoint && !e.userDrawing[i].isEndPoint
        ensures dist(e.userDrawing[i - 1].location, e.userDrawing[i].location) > dotDistance
      {
        assert i < n - 1;
        assert e.userDrawing[i] == ud[i] && e.userDrawing[i - 1] == ud[i - 1];
      }
    }
  }

  /** ClearData empties the drawing, and Compute as corrected (see Findings) also releases the recorder. */
  function AfterCompute(r: Recorder): (r': Recorder)
    ensures r'.userDrawing == [] && !r'.isComputing
  {
    r.(isComputing := false, userDrawing := [])
  }

  /**
   * Compute as written: the unrestricted branch clears the drawing and
   * bIsComputing, the restricted branch returns with bIsComputing still
   * set and the drawing kept.
   */
  function AfterComputeAsWritten(r: Recorder, restricted: bool): (r': Recorder)
    ensures restricted ==> r'.isComputing && r'.userDrawing == r.userDrawing
    ensures !restricted ==> r' == AfterCompute(r)
  {
    if restricted then r.(isComputing := true) else r.(isComputing := false, userDrawing := [])
  }

  /**
   * As written, a recognition restricted to one shape leaves the recorder
   * locked: no later touch of any finger changes it, so nothing is ever
   * drawn or recognised again.
   */
  lemma RestrictedComputeLocksRecorder(r: Recorder, pointer: int, coord: Vec2, dotDistance: real, dist: (Vec2, Vec2) -> real)
    requires !r.isDrawing
    ensures var locked := AfterComputeAsWritten(r, true);
      locked.isComputing &&
      TouchStarted(locked, pointer, coord) == locked &&
      TouchMoved(locked, pointer, coord, dotDistance, dist) == locked &&
      TouchEnded(locked, pointer, coord, dotDistance, dist) == locked
  {
  }

  /** Corrected, every recognition releases the recorder: the next touch of the first finger starts a new drawing. */
  lemma ComputeReleasesRecorder(r: Recorder, coord: Vec2, dotDistance: real, dist: (Vec2, Vec2) -> real)
    requires WellFormed(r, dotDistance, dist) && !r.isDrawing
    ensures WellFormed(AfterCompute(r), dotDistance, dist)
    ensures TouchStarted(AfterCompute(r), 0, coord).userDrawing == [StartDot(coord)]
    ensures TouchStarted(AfterCompute(r), 0, coord).isDrawing
  {
  }

  // ---------------------------------------------------------------- Key dots

  /** The state of the simplification loop: DotData, StartPointIndex, CurrentDirection. */
  datatype Simplifier = Simplifier(dots: seq<DotData>, startIndex: nat, direction: Vec2)

  /**
   * The key dots of the first `n` drawn dots. Start and end points are
   * kept; inside a stroke the direction from the last key dot is taken at
   * the next dot, and a corner is recorded at the dot before the first one
   * whose own step turns away from that direction (dot product at most
   * `threshold`).
   */
  function SimplifyUpTo(u: seq<DotData>, n: nat, normal: Vec2 -> Vec2, threshold: real): (s: Simplifier)
    requires n <= |u| && (u != [] ==> u[0].isStartPoint)
    ensures |s.dots| <= n
    ensures n == 0 ==> s == Simplifier([], 0, Zero2)
    ensures n > 0 ==> s.startIndex < |s.dots| && s.dots[0] == StartDot(u[0].location)
  {
    if n == 0 then Simplifier([], 0, Zero2)
    else SimplifyStep(SimplifyUpTo(u, n - 1, normal, threshold), u, n, normal, threshold)
  }

  /** The loop body for dot n - 1, on the state left by the dots before it. */
  function SimplifyStep(s: Simplifier, u: seq<DotData>, n: nat, normal: Vec2 -> Vec2, threshold: real): (r: Simplifier)
    requires 0 < n <= |u| && u[0].isStartPoint
    requires n > 1 ==> s.startIndex < |s.dots|
    ensures r.dots == s.dots || (|r.dots| == |s.dots| + 1 && r.dots[..|s.dots|] == s.dots)
    ensures n == 1 ==> r.dots == s.dots + [StartDot(u[0].location)]
    ensures r.startIndex < |r.dots| || (r == s && n > 1)
  {
    var d := u[n - 1];
    if d.isStartPoint then Simplifier(s.dots + [StartDot(d.location)], |s.dots|, s.direction)
    else if d.isEndPoint then Simplifier(s.dots + [EndDot(d.location)], s.startIndex, Zero2)
    else if s.direction != Zero2 then
      var step := normal(d.location.Minus(u[n - 2].location));
      if DotProduct(s.direction, step) <= threshold then
        Simplifier(s.dots + [PlainDot(u[n - 2].location)], |s.dots|, Zero2)
      else s
    else Simplifier(s.dots, s.startIndex, normal(d.location.Minus(s.dots[s.startIndex].location)))
  }

  /** The key dots of a whole drawing. */
  function KeyDots(u: seq<DotData>, normal: Vec2 -> Vec2, threshold: real): seq<DotData>
    requires u != [] ==> u[0].isStartPoint
  {
    SimplifyUpTo(u, |u|, normal, threshold).dots
  }

  /** A dot's stroke marker: its location and whether it starts a stroke. */
  function Marker(d: DotData): seq<(Vec2, bool)>
  {
    if d.isStartPoint || d.isEndPoint then [(d.location, d.isStartPoint)] else []
  }

  /** The start and end points of a drawing, in order. */
  function Markers(ds: seq<DotData>): seq<(Vec2, bool)>
  {
    if ds == [] then [] else Markers(ds[..|ds| - 1]) + Marker(ds[|ds| - 1])
  }

  /** Markers of a drawing extended by one dot. */
  lemma MarkersAppend(ds: seq<DotData>, d: DotData)
    ensures Markers(ds + [d]) == Markers(ds) + Marker(d)
  {
    assert (ds + [d])[..|ds|] == ds;
  }

  /** The markers of the first n drawn dots. */
  function MarkersUpTo(u: seq<DotData>, n: nat): seq<(Vec2, bool)>
    requires n <= |u|
  {
    if n == 0 then [] else MarkersUpTo(u, n - 1) + Marker(u[n - 1])
  }

  lemma {:induction false} MarkersOfPrefix(u: seq<DotData>, n: nat)
    requires n <= |u|
    ensures MarkersUpTo(u, n) == Markers(u[..n])
  {
    if n > 0 {
      MarkersOfPrefix(u, n - 1);
      assert u[..n] == u[..n - 1] + [u[n - 1]];
      MarkersAppend(u[..n - 1], u[n - 1]);
    }
  }

  lemma {:induction false} SimplifyKeepsMarkers(u: seq<DotData>, n: nat, normal: Vec2 -> Vec2, threshold: real)
    requires n <= |u| && (u != [] ==> u[0].isStartPoint)
    ensures Markers(SimplifyUpTo(u, n, normal, threshold).dots) == MarkersUpTo(u, n)
  {
    if n > 0 {
      SimplifyKeepsMarkers(u, n - 1, normal, threshold);
      SimplifyStepMarkers(u, n, normal, threshold);
      assert MarkersUpTo(u, n) == MarkersUpTo(u, n - 1) + Marker(u[n - 1]);
    }
  }

  /**
   * Simplification keeps every stroke: the key dots start and end strokes
   * at exactly the drawn start and end points, in order.
   */
  lemma KeyDotsKeepStrokes(u: seq<DotData>, normal: Vec2 -> Vec2, threshold: real)
    requires u != [] ==> u[0].isStartPoint
    ensures Markers(KeyDots(u, normal, threshold)) == Markers(u)
  {
    SimplifyKeepsMarkers(u, |u|, normal, threshold);
    MarkersOfPrefix(u, |u|);
    assert u[..|u|] == u;
  }

  /** One more drawn dot adds exactly its own stroke marker to the key dots' markers. */
  lemma SimplifyStepMarkers(u: seq<DotData>, n: nat, normal: Vec2 -> Vec2, threshold: real)
    requires 0 < n <= |u| && u[0].isStartPoint
    ensures Markers(SimplifyUpTo(u, n, normal, threshold).dots) ==
      Markers(SimplifyUpTo(u, n - 1, normal, threshold).dots) + Marker(u[n - 1])
  {
    var s := SimplifyUpTo(u, n - 1, normal, threshold);
    var d := u[n - 1];
    if d.isStartPoint {
      MarkersAppend(s.dots, StartDot(d.location));
    } else if d.isEndPoint {
      MarkersAppend(s.dots, EndDot(d.location));
    } else if s.direction != Zero2 {
      MarkersAppend(s.dots, PlainDot(u[n - 2].location));
    }
  }

  /** The loop of Compute that builds the key dots (lines 170-205). */
  method SimplifyDrawing(u: seq<DotData>, normal: Vec2 -> Vec2, threshold: real) returns (dots: seq<DotData>)
    requires u != [] ==> u[0].isStartPoint
    ensures dots == KeyDots(u, normal, threshold)
  {
    dots := [];
    var startIndex: nat := 0;
    var direction := Zero2;
    var i := 0;
    while i < |u|
      invariant i <= |u|
      invariant Simplifier(dots, startIndex, direction) == SimplifyUpTo(u, i, normal, threshold)
    {
      var d := u[i];
      if d.isStartPoint {
        startIndex := |dots|;
        dots := dots + [StartDot(d.location)];
      } else if d.isEndPoint {
        dots := dots + [EndDot(d.location)];
        direction := Zero2;
      } else if direction != Zero2 {
        var step := normal(d.location.Minus(u[i - 1].location));
        if DotProduct(direction, step) <= threshold {
          startIndex := |dots|;
          dots := dots + [PlainDot(u[i - 1].location)];
          direction := Zero2;
        }
      } else {
        direction := normal(d.location.Minus(dots[startIndex].location));
      }
      i := i + 1;
    }
  }

  // ---------------------------------------------------------------- Recognition

  /** The drawing's lines, angles and dots, computed as a virtual shape computes its own. */
  function DrawingGeometry(u: seq<DotData>, normal: Vec2 -> Vec2, dist: (Vec2, Vec2) -> real,
                           cornerAngle: (Vec2, Vec2) -> real, threshold: real): ShapeGeometry
    requires u != [] ==> u[0].isStartPoint
  {
    GeometryOf(KeyDots(u, normal, threshold), normal, dist, cornerAngle)
  }

  /** UVirtualShape::Evaluate of one shape on the drawing's geometry. */
  function ScoreOf(shape: UVirtualShape, g: ShapeGeometry): Option<real>
    reads shape
  {
    EvaluateScore(shape.filters, AngleScore(shape.shapeAngles, shape.totalAngleValue, g.angles),
      LineScore(shape.shapeLines, g.lines), DotScore(|shape.dotData|, |g.relative|))
  }

  /** The score of every shape, in order. */
  function Scores(shapes: seq<UVirtualShape>, g: ShapeGeometry): (r: seq<Option<real>>)
    reads shapes
    ensures |r| == |shapes| && forall i :: 0 <= i < |r| ==> r[i] == ScoreOf(shapes[i], g)
  {
    seq(|shapes|, i reads shapes requires 0 <= i < |shapes| => ScoreOf(shapes[i], g))
  }

  /** The names of the shapes, in order. */
  function Names(shapes: seq<UVirtualShape>): (r: seq<string>)
    reads shapes
    ensures |r| == |shapes| && forall i :: 0 <= i < |r| ==> r[i] == shapes[i].name
  {
    seq(|shapes|, i reads shapes requires 0 <= i < |shapes| => shapes[i].name)
  }

  /** `Score > bound` on a float score; a 0/0 score (None) compares false. */
  predicate Exceeds(score: Option<real>, bound: real)
  {
    score.Some? && score.value > bound
  }

  /** The restricted search: the first shape from `k` on with the restricted name scoring above 60. */
  function RestrictedFrom(names: seq<string>, scores: seq<Option<real>>, restricted: string, k: nat): Option<nat>
    requires |names| == |scores| && k <= |names|
    decreases |names| - k
  {
    if k == |names| then None
    else if SameName(names[k], restricted) && Exceeds(scores[k], RestrictedMatchScore) then Some(k)
    else RestrictedFrom(names, scores, restricted, k + 1)
  }

  /**
   * The restricted recognition succeeds exactly when a shape of the
   * restricted name scores above 60, and then with the first such shape.
   */
  lemma {:induction false} RestrictedFromSpec(names: seq<string>, scores: seq<Option<real>>, restricted: string, k: nat)
    requires |names| == |scores| && k <= |names|
    ensures var r := RestrictedFrom(names, scores, restricted, k);
      (r.None? <==> forall i :: k <= i < |names| ==> !(SameName(names[i], restricted) && Exceeds(scores[i], RestrictedMatchScore))) &&
      (r.Some? ==>
        (k <= r.value < |names| && SameName(names[r.value], restricted) && Exceeds(scores[r.value], RestrictedMatchScore) &&
         forall i :: k <= i < r.value ==> !(SameName(names[i], restricted) && Exceeds(scores[i], RestrictedMatchScore))))
    decreases |names| - k
  {
    if k < |names| {
      RestrictedFromSpec(names, scores, restricted, k + 1);
    }
  }

  /** The unrestricted search: the best score above 0 and the first shape reaching it (-1 for none). */
  function BestMatch(scores: seq<Option<real>>): (real, int)
  {
    if scores == [] then (0.0, -1)
    else
      var (best, index) := BestMatch(scores[..|scores| - 1]);
      var last := scores[|scores| - 1];
      if Exceeds(last, best) then (last.value, |scores| - 1) else (best, index)
  }

  /**
   * BestMatch finds the highest score above 0 and the first shape that
   * has it; with no score above 0 it stays at (0, -1).
   */
  lemma {:induction false} BestMatchSpec(scores: seq<Option<real>>)
    ensures var (best, index) := BestMatch(scores);
      0.0 <= best && -1 <= index < |scores| &&
      (index == -1 <==> forall k :: 0 <= k < |scores| ==> !Exceeds(scores[k], 0.0)) &&
      (index == -1 ==> best == 0.0) &&
      (index >= 0 ==> scores[index] == Some(best) && best > 0.0) &&
      (forall k :: 0 <= k < |scores| ==> !Exceeds(scores[k], best)) &&
      (index >= 0 ==> forall k :: 0 <= k < index ==> !(scores[k].Some? && scores[k].value >= best))
  {
    if scores != [] {
      var init := scores[..|scores| - 1];
      BestMatchSpec(init);
      assert forall k :: 0 <= k < |init| ==> scores[k] == init[k];
    }
  }

  /** The outcome of the unrestricted branch as written, with the null detected shape as a case of its own. */
  datatype Decision = Detected(index: nat) | NotDetected | NullShapeDetected

  /**
   * The unrestricted decision as written: success when the best score
   * exceeds `minMatching`, even when no shape scored above 0 and the
   * detected shape is still null.
   */
  function UnrestrictedDecisionAsWritten(scores: seq<Option<real>>, minMatching: real): (d: Decision)
    ensures d.NullShapeDetected? <==> BestMatch(scores).1 == -1 && minMatching < 0.0
  {
    BestMatchSpec(scores);
    var (best, index) := BestMatch(scores);
    if best > minMatching then (if index >= 0 then Detected(index) else NullShapeDetected) else NotDetected
  }

  /** With a negative threshold and no shape scoring above 0, the source dereferences a null shape. */
  lemma NegativeThresholdDetectsNullShape()
    ensures UnrestrictedDecisionAsWritten([], -1.0) == NullShapeDetected
    ensures UnrestrictedDecisionAsWritten([Some(0.0)], -1.0) == NullShapeDetected
  {
  }

  /** The unrestricted decision, corrected: success needs a detected shape. */
  function UnrestrictedDecision(scores: seq<Option<real>>, minMatching: real): Option<nat>
  {
    var (best, index) := BestMatch(scores);
    if best > minMatching && index >= 0 then Some(index) else None
  }

  /**
   * The unrestricted recognition succeeds exactly when some score exceeds
   * both 0 and `minMatching`, and then with the first best-scoring shape.
   */
  lemma UnrestrictedDecisionSpec(scores: seq<Option<real>>, minMatching: real)
    ensures var r := UnrestrictedDecision(scores, minMatching);
      (r.Some? <==> exists k :: 0 <= k < |scores| && Exceeds(scores[k], 0.0) && Exceeds(scores[k], minMatching)) &&
      (r.Some? ==>
        (r.value < |scores| && Exceeds(scores[r.value], minMatching) &&
         (forall k :: 0 <= k < |scores| ==> !Exceeds(scores[k], scores[r.value].value)) &&
         (forall k :: 0 <= k < r.value ==> !(scores[k].Some? && scores[k].value >= scores[r.value].value))))
  {
    BestMatchSpec(scores);
    var (best, index) := BestMatch(scores);
    if exists k :: 0 <= k < |scores| && Exceeds(scores[k], 0.0) && Exceeds(scores[k], minMatching) {
      var k :| 0 <= k < |scores| && Exceeds(scores[k], 0.0) && Exceeds(scores[k], minMatching);
      assert !Exceeds(scores[k], best);
    }
  }

  /** The outcome of Compute: restricted or not, by the restriction name. */
  function Decide(restricted: string, names: seq<string>, scores: seq<Option<real>>, minMatching: real): Option<nat>
    requires |names| == |scores|
  {
    if !IsNone(restricted) then RestrictedFrom(names, scores, restricted, 0)
    else UnrestrictedDecision(scores, minMatching)
  }

  /** What Compute broadcasts for drawing `u`: the index of the detected shape, or None for a failure. */
  function Recognition(shapes: seq<UVirtualShape>, u: seq<DotData>, restricted: string, normal: Vec2 -> Vec2,
                       dist: (Vec2, Vec2) -> real, cornerAngle: (Vec2, Vec2) -> real, threshold: real, minMatching: real): Option<nat>
    requires u != [] ==> u[0].isStartPoint
    reads shapes
  {
    Decide(restricted, Names(shapes), Scores(shapes, DrawingGeometry(u, normal, dist, cornerAngle, threshold)), minMatching)
  }

  /** Compute's work on values: key dots, geometry, scores and the decision. */
  method RecognizeDrawing(shapes: seq<UVirtualShape>, u: seq<DotData>, restricted: string, normal: Vec2 -> Vec2,
                          dist: (Vec2, Vec2) -> real, cornerAngle: (Vec2, Vec2) -> real, threshold: real, minMatching: real)
    returns (decision: Option<nat>)
    requires u != [] ==> u[0].isStartPoint
    ensures decision == Recognition(shapes, u, restricted, normal, dist, cornerAngle, threshold, minMatching)
  {
    var keyDots := SimplifyDrawing(u, normal, threshold);
    var g := ComputeGeometry(keyDots, normal, dist, cornerAngle);
    decision := Recognize(shapes, g, restricted, minMatching);
  }

  /**
   * The scoring half of Compute (lines 287-335) on the drawing's geometry.
   * Every shape is evaluated first and the two searches then run on the
   * scores (Evaluate changes nothing, so the outcome is the same as
   * evaluating inside the searches).
   */
  method Recognize(shapes: seq<UVirtualShape>, g: ShapeGeometry, restricted: string, minMatching: real) returns (decision: Option<nat>)
    ensures decision == Decide(restricted, Names(shapes), Scores(shapes, g), minMatching)
  {
    var scores := ScoreAll(shapes, g);
    if !IsNone(restricted) {
      decision := RecognizeRestricted(Names(shapes), scores, restricted);
    } else {
      var matchingScore, detected := RecognizeBest(scores);
      decision := if matchingScore > minMatching && detected >= 0 then Some(detected) else None;
    }
  }

  /** UVirtualShape::Evaluate of every shape on the drawing's lines, angles and relative dots. */
  method ScoreAll(shapes: seq<UVirtualShape>, g: ShapeGeometry) returns (scores: seq<Option<real>>)
    ensures scores == Scores(shapes, g)
  {
    scores := [];
    var i := 0;
    while i < |shapes|
      invariant i <= |shapes|
      invariant scores == Scores(shapes, g)[..i]
    {
      var score := shapes[i].Evaluate(g.lines, g.angles, g.relative);
      scores := scores + [score];
      i := i + 1;
    }
  }

  /** The restricted loop (lines 289-306): the first shape of that name scoring above 60. */
  method RecognizeRestricted(names: seq<string>, scores: seq<Option<real>>, restricted: string) returns (found: Option<nat>)
    requires |names| == |scores|
    ensures found == RestrictedFrom(names, scores, restricted, 0)
  {
    var i := 0;
    while i < |names|
      invariant i <= |names|
      invariant RestrictedFrom(names, scores, restricted, 0) == RestrictedFrom(names, scores, restricted, i)
    {
      if SameName(names[i], restricted) && Exceeds(scores[i], RestrictedMatchScore) {
        return Some(i);
      }
      i := i + 1;
    }
    return None;
  }

  /** The unrestricted loop (lines 311-323): the best score above 0 and its shape. */
  method RecognizeBest(scores: seq<Option<real>>) returns (matchingScore: real, detected: int)
    ensures (matchingScore, detected) == BestMatch(scores)
  {
    matchingScore, detected := 0.0, -1;
    var i := 0;
    while i < |scores|
      invariant i <= |scores|
      invariant (matchingScore, detected) == BestMatch(scores[..i])
    {
      assert scores[..i + 1][..i] == scores[..i];
      if Exceeds(scores[i], matchingScore) {
        matchingScore, detected := scores[i].value, i;
      }
      i := i + 1;
    }
    assert scores[..i] == scores;
  }

  // ---------------------------------------------------------------- The component

  class UShapeManager {
    var virtualShapes: seq<UVirtualShape>
    var closeShape: bool
    var maxCloseDistance: real
    var restrictedVirtualShapeName: string
    var userDrawing: seq<DotData>
    var dotData: seq<DotData>
    var shapeDotDistance: real
    var isComputing: bool
    var isDrawing: bool
    var launchTimer: bool
    var previousDotPosition: Vec2
    /** bBlockLowerPriority, what the listener's OnTouchStarted returns. */
    var blockLowerPriority: bool
    /** The broadcasts: Some(i) for OnShapeDetectionSuccess with virtualShapes[i], None for OnShapeDetectionFailed. */
    var detections: seq<Option<nat>>

    /** The constructor and BeginPlay: `dotDistance` is the ShapeDotDistance setting. */
    constructor(shapes: seq<UVirtualShape>, dotDistance: real, blockLower: bool)
      ensures virtualShapes == shapes && shapeDotDistance == dotDistance && blockLowerPriority == blockLower
      ensures !closeShape && maxCloseDistance == 10.0 && previousDotPosition == Zero2
      ensures IsNone(restrictedVirtualShapeName)
      ensures Recording() == Recorder([], false, false, false) && dotData == [] && detections == []
    {
      virtualShapes, shapeDotDistance, blockLowerPriority := shapes, dotDistance, blockLower;
      closeShape, maxCloseDistance, previousDotPosition := false, 10.0, Zero2;
      restrictedVirtualShapeName := NameNone;
      userDrawing, dotData, detections := [], [], [];
      isComputing, isDrawing, launchTimer := false, false, false;
    }

    /** The recording state of this component. */
    function Recording(): Recorder
      reads this
    {
      Recorder(userDrawing, isComputing, isDrawing, launchTimer)
    }

    method OnTouchStarted(pointer: int, coord: Vec2) returns (blocks: bool)
      modifies this`userDrawing, this`isDrawing, this`launchTimer
      ensures Recording() == TouchStarted(old(Recording()), pointer, coord)
      ensures blocks == blockLowerPriority
    {
      blocks := blockLowerPriority;
      if pointer == 0 {
        if isComputing {
          return;
        }
        if !launchTimer {
          userDrawing := [];
        } else {
          launchTimer := false;
        }
        userDrawing := userDrawing + [StartDot(coord)];
        isDrawing := true;
      }
    }

    method OnTouchMoved(pointer: int, coord: Vec2, dist: (Vec2, Vec2) -> real)
      requires isDrawing ==> userDrawing != []
      modifies this`userDrawing
      ensures Recording() == TouchMoved(old(Recording()), pointer, coord, shapeDotDistance, dist)
    {
      if pointer == 0 && isDrawing {
        if dist(userDrawing[|userDrawing| - 1].location, coord) > shapeDotDistance {
          userDrawing := userDrawing + [PlainDot(coord)];
        }
      }
    }

    method OnTouchEnded(pointer: int, coord: Vec2, dist: (Vec2, Vec2) -> real)
      requires isDrawing ==> userDrawing != []
      modifies this`userDrawing, this`isDrawing, this`launchTimer
      ensures Recording() == TouchEnded(old(Recording()), pointer, coord, shapeDotDistance, dist)
    {
      if pointer == 0 && isDrawing {
        isDrawing := false;
        var n := |userDrawing|;
        var last := userDrawing[n - 1];
        if dist(userDrawing[0].location, coord) <= shapeDotDistance {
          last := last.(location := userDrawing[0].location);
        }
        userDrawing := userDrawing[..n - 1] + [last.(isEndPoint := true)];
        launchTimer := true;
      }
    }

    /** RestrictRecognizerToShapeByName: true exactly when a shape of that name exists, which then becomes the restriction. */
    method RestrictRecognizerToShapeByName(name: string) returns (found: bool)
      modifies this`restrictedVirtualShapeName
      ensures found <==> exists i :: 0 <= i < |virtualShapes| && SameName(virtualShapes[i].name, name)
      ensures restrictedVirtualShapeName == if found then name else old(restrictedVirtualShapeName)
    {
      var i := 0;
      while i < |virtualShapes|
        invariant i <= |virtualShapes|
        invariant forall k :: 0 <= k < i ==> !SameName(virtualShapes[k].name, name)
      {
        if SameName(virtualShapes[i].name, name) {
          restrictedVirtualShapeName := name;
          assert SameName(virtualShapes[i].name, name);
          return true;
        }
        i := i + 1;
      }
      return false;
    }

    /** RestrictRecognizerToShapeByAsset: a shape of this component becomes the restriction by its name; any other is ignored. */
    method RestrictRecognizerToShapeByAsset(shape: UVirtualShape)
      modifies this`restrictedVirtualShapeName
      ensures restrictedVirtualShapeName == if shape in virtualShapes then shape.name else old(restrictedVirtualShapeName)
    {
      var i := 0;
      while i < |virtualShapes|
        invariant i <= |virtualShapes|
        invariant restrictedVirtualShapeName == if shape in virtualShapes[..i] then shape.name else old(restrictedVirtualShapeName)
      {
        assert virtualShapes[..i + 1] == virtualShapes[..i] + [virtualShapes[i]];
        if shape == virtualShapes[i] {
          restrictedVirtualShapeName := virtualShapes[i].name;
        }
        i := i + 1;
      }
      assert virtualShapes[..i] == virtualShapes;
    }

    method ClearRecognizerRestriction()
      modifies this`restrictedVirtualShapeName
      ensures IsNone(restrictedVirtualShapeName)
    {
      restrictedVirtualShapeName := NameNone;
    }

    method ClearData()
      modifies this`userDrawing
      ensures userDrawing == []
    {
      userDrawing := [];
    }

    /**
     * Compute (TryRecognizeShape): recognise the finished drawing, record
     * the broadcast, and clear the drawing, the key dots and bIsComputing
     * (on every path: see Findings). The drawing must be finished.
     */
    method Compute(normal: Vec2 -> Vec2, dist: (Vec2, Vec2) -> real, cornerAngle: (Vec2, Vec2) -> real,
                   threshold: real, minMatching: real)
      requires userDrawing != [] ==> userDrawing[0].isStartPoint
      requires !isDrawing
      modifies this`isComputing, this`userDrawing, this`dotData, this`detections
      ensures Recording() == AfterCompute(old(Recording())) && dotData == []
      ensures detections == old(detections) +
        [old(Recognition(virtualShapes, userDrawing, restrictedVirtualShapeName, normal, dist, cornerAngle, threshold, minMatching))]
    {
      ghost var expected := Recognition(virtualShapes, userDrawing, restrictedVirtualShapeName, normal, dist, cornerAngle, threshold, minMatching);
      var decision := RecognizeDrawing(virtualShapes, userDrawing, restrictedVirtualShapeName, normal, dist, cornerAngle, threshold, minMatching);
      assert decision == expected;
      isComputing, userDrawing, dotData, detections := false, [], [], detections + [decision];
    }
  }
}
