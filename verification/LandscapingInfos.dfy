/**
 * ALandscapingInfos: the per-level actor that owns the imported tiles, the
 * level's projection and its CRS object. Modelled are the CRS reset and
 * replacement, the guarded origin setter, the shift of every vector point by
 * a location delta, the XY offset from the left- and top-most tiles, and the
 * total area of the tiles.
 *
 * What GDAL answers while a CRS object is initialised (the WKT exported for
 * an EPSG code, whether a WKT parses as projected) and the ID the plugin
 * settings resolve to are parameters.
 */
module LandscapingInfos {
  import opened Common
  import opened LandscapingStructs
  import opened LandscapingInfo
  import opened CoordinateReferenceSystem

  /**
   * GDAL's answers while a CRS object is set up: the WKT exported for the
   * level's EPSG code, whether the level's WKT parses as projected, and the WKT
   * exported for the plugin settings' projection.
   */
  datatype GdalAnswers = GdalAnswers(epsgWkt: Option<string>, rootWktValid: bool, settingsWkt: Option<string>)

  /**
   * The tiles after a new CRS object fills in their missing WGS84 extents:
   * a tile whose WGS84 extents are empty gets its extents converted by `toGeog`,
   * every other tile and every other field is as it was.
   */
  predicate GeogExtentsFilled(before: seq<LandscapingInfo>, after: seq<LandscapingInfo>, toGeog: Extents -> Extents)
  {
    && |after| == |before|
    && forall i :: 0 <= i < |before| ==>
         after[i] == if before[i].wgs84Extents.IsEmpty() then before[i].(wgs84Extents := toGeog(before[i].extents)) else before[i]
  }

  const EpsgPrefix: string := "EPSG:"

  /** FString::StartsWith("EPSG:"), which ignores case by default. */
  predicate HasEpsgPrefix(s: string)
  {
    |s| >= |EpsgPrefix| && EqualsIgnoreCase(s[..|EpsgPrefix|], EpsgPrefix)
  }

  /** FString::RemoveFromStart("EPSG:"): the prefix is dropped only when present. */
  function WithoutEpsgPrefix(s: string): (r: string)
    ensures HasEpsgPrefix(s) ==> r == s[|EpsgPrefix|..]
    ensures !HasEpsgPrefix(s) ==> r == s
  {
    if HasEpsgPrefix(s) then s[|EpsgPrefix|..] else s
  }

  // ------------------------------------------------------------- FCString::Atoi

  predicate IsSpace(c: char)
  {
    c == ' ' || c == '\t' || c == '\n' || c == '\r' || c == '\U{B}' || c == '\U{C}'
  }

  /** The number of leading digits of s. */
  function DigitRun(s: string): (k: nat)
    ensures k <= |s| && AllDigits(s[..k])
    ensures k < |s| ==> !IsDigit(s[k])
  {
    if s == [] || !IsDigit(s[0]) then 0
    else
      var k := DigitRun(s[1..]);
      assert s[..k + 1] == [s[0]] + s[1..][..k];
      k + 1
  }

  /** atoi: leading white space, an optional sign, then as many digits as follow; 0 if there are none. */
  function Atoi(s: string): int
  {
    if s != [] && IsSpace(s[0]) then Atoi(s[1..])
    else if s != [] && (s[0] == '-' || s[0] == '+') then
      var t := s[1..];
      var v: int := IntValue(t[..DigitRun(t)]);
      if s[0] == '-' then -v else v
    else IntValue(s[..DigitRun(s)])
  }

  /** A plain digit string reads as its decimal value. */
  lemma AtoiOfDigits(d: string)
    requires d != [] && AllDigits(d)
    ensures Atoi(d) == IntValue(d)
  {
    assert !IsSpace(d[0]) && d[0] != '-' && d[0] != '+';
    assert DigitRun(d) == |d| by {
      DigitRunOfDigits(d);
    }
    assert d[..|d|] == d;
  }

  lemma {:induction false} DigitRunOfDigits(d: string)
    requires AllDigits(d)
    ensures DigitRun(d) == |d|
  {
    if d != [] {
      DigitRunOfDigits(d[1..]);
    }
  }

  /** The EPSG code a projection string such as "EPSG:4326" names. */
  function ProjectionCode(projection: string): int
  {
    Atoi(WithoutEpsgPrefix(projection))
  }

  /** The first tile's top-left corner, the origin a new CRS object gets when tiles exist. */
  function InitialOrigin(tiles: seq<LandscapingInfo>): Vec3
  {
    if tiles == [] then Zero3 else Vec3(tiles[0].extents.left, tiles[0].extents.top, 0.0)
  }

  // ------------------------------------------------------------- UpdateLocationToGeometries

  function Translate(p: Vec3, d: Vec3): Vec3
  {
    Vec3(p.x + d.x, p.y + d.y, p.z + d.z)
  }

  function Negate(d: Vec3): Vec3
  {
    Vec3(-d.x, -d.y, -d.z)
  }

  function ShiftedPoints(points: seq<Vec3>, d: Vec3): (r: seq<Vec3>)
  {
    seq(|points|, j requires 0 <= j < |points| => Translate(points[j], d))
  }

  function ShiftedShapes(shapes: seq<VectorData>, d: Vec3): (r: seq<VectorData>)
  {
    seq(|shapes|, i requires 0 <= i < |shapes| => shapes[i].(points := ShiftedPoints(shapes[i].points, d)))
  }

  function ShiftedTile(tile: LandscapingInfo, d: Vec3): LandscapingInfo
  {
    tile.(splineGeometries := ShiftedShapes(tile.splineGeometries, d),
          landcoverShapes := ShiftedShapes(tile.landcoverShapes, d))
  }

  function ShiftedTiles(tiles: seq<LandscapingInfo>, d: Vec3): seq<LandscapingInfo>
  {
    seq(|tiles|, t requires 0 <= t < |tiles| => ShiftedTile(tiles[t], d))
  }

  /** The inner loop: every point moved by d. */
  method ShiftPoints(points: seq<Vec3>, d: Vec3) returns (r: seq<Vec3>)
    ensures r == ShiftedPoints(points, d)
  {
    r := points;
    var j := 0;
    while j < |r|
      invariant 0 <= j <= |r| == |points|
      invariant forall k :: 0 <= k < j ==> r[k] == Translate(points[k], d)
      invariant forall k :: j <= k < |r| ==> r[k] == points[k]
    {
      r := r[j := Translate(r[j], d)];
      j := j + 1;
    }
  }

  /** The middle loop: every shape's points moved by d, everything else kept. */
  method ShiftShapes(shapes: seq<VectorData>, d: Vec3) returns (r: seq<VectorData>)
    ensures r == ShiftedShapes(shapes, d)
  {
    r := shapes;
    var i := 0;
    while i < |r|
      invariant 0 <= i <= |r| == |shapes|
      invariant forall k :: 0 <= k < i ==> r[k] == shapes[k].(points := ShiftedPoints(shapes[k].points, d))
      invariant forall k :: i <= k < |r| ==> r[k] == shapes[k]
    {
      var moved := ShiftPoints(r[i].points, d);
      r := r[i := r[i].(points := moved)];
      i := i + 1;
    }
  }

  /** Shifting by d and then by -d gives the tiles back. */
  lemma ShiftInverse(tiles: seq<LandscapingInfo>, d: Vec3)
    ensures ShiftedTiles(ShiftedTiles(tiles, d), Negate(d)) == tiles
  {
    forall t | 0 <= t < |tiles|
      ensures ShiftedTile(ShiftedTile(tiles[t], d), Negate(d)) == tiles[t]
    {
      ShapesInverse(tiles[t].splineGeometries, d);
      ShapesInverse(tiles[t].landcoverShapes, d);
    }
  }

  lemma ShapesInverse(shapes: seq<VectorData>, d: Vec3)
    ensures ShiftedShapes(ShiftedShapes(shapes, d), Negate(d)) == shapes
  {
    forall i | 0 <= i < |shapes|
      ensures ShiftedPoints(ShiftedPoints(shapes[i].points, d), Negate(d)) == shapes[i].points
    {
    }
  }

  /** The shift keeps every count: tiles, shapes per tile and points per shape; only points move. */
  lemma ShiftKeepsCounts(tiles: seq<LandscapingInfo>, d: Vec3, t: nat, i: nat)
    requires t < |tiles|
    ensures |ShiftedTiles(tiles, d)| == |tiles|
    ensures |ShiftedTiles(tiles, d)[t].splineGeometries| == |tiles[t].splineGeometries|
    ensures |ShiftedTiles(tiles, d)[t].landcoverShapes| == |tiles[t].landcoverShapes|
    ensures i < |tiles[t].splineGeometries| ==>
      |ShiftedTiles(tiles, d)[t].splineGeometries[i].points| == |tiles[t].splineGeometries[i].points|
      && ShiftedTiles(tiles, d)[t].splineGeometries[i].pointsOriginal == tiles[t].splineGeometries[i].pointsOriginal
    ensures i < |tiles[t].landcoverShapes| ==>
      |ShiftedTiles(tiles, d)[t].landcoverShapes[i].points| == |tiles[t].landcoverShapes[i].points|
      && ShiftedTiles(tiles, d)[t].landcoverShapes[i].pointsOriginal == tiles[t].landcoverShapes[i].pointsOriginal
  {
  }

  // ------------------------------------------------------------- GetArea

  /** The tiles' areas summed in order. */
  function TotalArea(tiles: seq<LandscapingInfo>): real
  {
    if tiles == [] then 0.0 else TotalArea(tiles[..|tiles| - 1]) + tiles[|tiles| - 1].extents.GetArea()
  }

  /** The total is never negative. */
  lemma {:induction false} TotalAreaNonNegative(tiles: seq<LandscapingInfo>)
    ensures TotalArea(tiles) >= 0.0
  {
    if tiles != [] {
      TotalAreaNonNegative(tiles[..|tiles| - 1]);
      assert tiles[|tiles| - 1].extents.GetArea() >= 0.0;
    }
  }

  /** The total is 0 when every tile's extents are empty. */
  lemma TotalAreaOfEmptyTiles(tiles: seq<LandscapingInfo>)
    requires forall t :: 0 <= t < |tiles| ==> tiles[t].extents.IsEmpty()
    ensures TotalArea(tiles) == 0.0
  {
    forall t | 0 <= t < |tiles|
      ensures Area(tiles[t]) == 0.0
    {
    }
    TotalAreaOfZeroAreas(tiles);
  }

  function Area(tile: LandscapingInfo): real
  {
    tile.extents.GetArea()
  }

  lemma {:induction false} TotalAreaOfZeroAreas(tiles: seq<LandscapingInfo>)
    requires forall t :: 0 <= t < |tiles| ==> Area(tiles[t]) == 0.0
    ensures TotalArea(tiles) == 0.0
  {
    if tiles != [] {
      var n := |tiles| - 1;
      var init := tiles[..n];
      forall t | 0 <= t < n
        ensures Area(init[t]) == 0.0
      {
        assert init[t] == tiles[t];
      }
      TotalAreaOfZeroAreas(init);
      assert Area(tiles[n]) == 0.0;
    }
  }

  // ------------------------------------------------------------- the actor

  class LandscapingInfos {
    var tiles: seq<LandscapingInfo>
    var rootProjection: string
    var rootWkt: string
    var extents: Extents
    var croppedExtents: Extents
    var xyOffset: Vec3
    var vectorDataScale: Vec3
    var landscapeScaleFactor: real
    var usePreciseScale: bool
    var crs: CoordinateReferenceSystem?

    /** The property defaults of a new actor: no tiles, no projection, no CRS object yet. */
    constructor ()
      ensures tiles == [] && rootProjection == "" && rootWkt == ""
      ensures extents == EmptyExtents && croppedExtents == EmptyExtents
      ensures xyOffset == Zero3 && vectorDataScale == Vec3(100.0, 100.0, 100.0)
      ensures landscapeScaleFactor == 1.0 && usePreciseScale && crs == null
    {
      tiles := [];
      rootProjection := "";
      rootWkt := "";
      extents := EmptyExtents;
      croppedExtents := EmptyExtents;
      xyOffset := Zero3;
      vectorDataScale := Vec3(100.0, 100.0, 100.0);
      landscapeScaleFactor := 1.0;
      usePreciseScale := true;
      crs := null;
    }

    /** Everything but the tiles and the CRS pointer is as it was. */
    twostate predicate KeepsFieldsButTiles()
      reads this
    {
      rootProjection == old(rootProjection) && rootWkt == old(rootWkt)
      && extents == old(extents) && croppedExtents == old(croppedExtents) && xyOffset == old(xyOffset)
      && vectorDataScale == old(vectorDataScale) && landscapeScaleFactor == old(landscapeScaleFactor)
      && usePreciseScale == old(usePreciseScale)
    }

    /** Everything but the CRS pointer is as it was. */
    twostate predicate KeepsActorFields()
      reads this
    {
      tiles == old(tiles) && KeepsFieldsButTiles()
    }

    /**
     * GetCRS: returns the CRS object, creating and initialising one first if
     * there is none (offsets and scales copied over, the origin and cropped
     * extents from the tiles, the EPSG code and WKT from the level's projection),
     * and then giving every tile without WGS84 extents its extents converted by
     * the new object (`toGeog`, which calls into GDAL).
     */
    method GetCRS(gdal: GdalAnswers, toGeog: Extents -> Extents) returns (c: CoordinateReferenceSystem)
      modifies this
      ensures c == crs && KeepsFieldsButTiles()
      ensures old(crs) != null ==> c == old(crs) && tiles == old(tiles)
      ensures old(crs) == null ==> (
        && fresh(c)
        && GeogExtentsFilled(old(tiles), tiles, toGeog)
        && c.origin == InitialOrigin(old(tiles))
        && c.croppedExtents == (if old(tiles) == [] then EmptyExtents else croppedExtents)
        && c.xyOffset == xyOffset && c.vectorScale == vectorDataScale
        && c.landscapeScaleFactor == landscapeScaleFactor && c.usePreciseScale == usePreciseScale
        && (rootProjection == "" ==> c.authorityId == 0 && c.wkt == "")
        && (rootProjection != "" && rootWkt == "" ==>
              c.authorityId == (if IsEpsgIDValid(ProjectionCode(rootProjection)) then ProjectionCode(rootProjection) else 0))
        && (rootProjection != "" && rootWkt != "" ==>
              c.authorityId == (if gdal.rootWktValid then ProjectionCode(rootProjection) else 0)))
    {
      if crs != null {
        return crs;
      }
      c := new CoordinateReferenceSystem();
      c.vectorScale := vectorDataScale;
      c.SetXYOffset(xyOffset);
      if tiles != [] {
        c.SetOrigin(Vec3(tiles[0].extents.left, tiles[0].extents.top, 0.0));
        c.croppedExtents := croppedExtents;
      }
      if rootProjection != "" {
        c.SetAuthorityID(ProjectionCode(rootProjection), rootWkt, gdal.epsgWkt, gdal.rootWktValid);
      }
      c.landscapeScaleFactor := landscapeScaleFactor;
      c.usePreciseScale := usePreciseScale;
      crs := c;
      FillGeogExtents(toGeog);
    }

    /** The loop at the end of GetCRS over the tiles without WGS84 extents. */
    method FillGeogExtents(toGeog: Extents -> Extents)
      modifies this
      ensures GeogExtentsFilled(old(tiles), tiles, toGeog)
      ensures KeepsFieldsButTiles() && crs == old(crs)
    {
      var t := 0;
      while t < |tiles|
        invariant 0 <= t <= |tiles| == |old(tiles)|
        invariant forall k :: 0 <= k < t ==>
          tiles[k] == if old(tiles)[k].wgs84Extents.IsEmpty() then old(tiles)[k].(wgs84Extents := toGeog(old(tiles)[k].extents)) else old(tiles)[k]
        invariant forall k :: t <= k < |tiles| ==> tiles[k] == old(tiles)[k]
        invariant KeepsFieldsButTiles() && crs == old(crs)
      {
        if tiles[t].wgs84Extents.IsEmpty() {
          tiles := tiles[t := tiles[t].(wgs84Extents := toGeog(tiles[t].extents))];
        }
        t := t + 1;
      }
    }

    /** The origin a CRS object has once GetCRS has run. */
    function OriginOnDemand(): Vec3
      reads this, crs
    {
      if crs != null then crs.origin else InitialOrigin(tiles)
    }

    /** SetOrigin: writes the CRS origin only when it is still zero. */
    method SetOrigin(inOrigin: Vec3, gdal: GdalAnswers, toGeog: Extents -> Extents)
      modifies this, crs
      ensures crs != null && KeepsFieldsButTiles()
      ensures old(crs) != null ==> crs == old(crs) && tiles == old(tiles)
      ensures old(crs) == null ==> GeogExtentsFilled(old(tiles), tiles, toGeog)
      ensures crs.origin == (if old(OriginOnDemand()).IsZero() then inOrigin else old(OriginOnDemand()))
    {
      var c := GetCRS(gdal, toGeog);
      if !c.IsOriginValid() {
        c.SetOrigin(inOrigin);
      }
    }

    /** ResetCRS: with no tiles, forgets the projection, WKT, extents and CRS object; otherwise ignored. */
    method ResetCRS()
      modifies this
      ensures tiles == old(tiles) && xyOffset == old(xyOffset) && vectorDataScale == old(vectorDataScale)
      ensures landscapeScaleFactor == old(landscapeScaleFactor) && usePreciseScale == old(usePreciseScale)
      ensures old(tiles) == [] ==> (
        && rootProjection == "" && rootWkt == "" && extents == EmptyExtents
        && croppedExtents == EmptyExtents && crs == null)
      ensures old(tiles) != [] ==> KeepsActorFields() && crs == old(crs)
    {
      if tiles == [] {
        rootProjection := "";
        rootWkt := "";
        croppedExtents := EmptyExtents;
        extents := EmptyExtents;
        crs := null;
      }
    }

    /**
     * SetCRS: for an "EPSG:" projection, drops every tile, resets the CRS and
     * starts a new one with this projection and origin, returning its EPSG
     * code as GetAuthorityID resolves it; anything else returns -1 and changes
     * nothing. `settingsProjection` is the plugin settings' projection when
     * their mode is a custom CRS.
     */
    method SetCRS(authorityIdStr: string, origin: Vec3, gdal: GdalAnswers, toGeog: Extents -> Extents,
                  settingsProjection: Option<int>) returns (id: int)
      modifies this, crs
      ensures !HasEpsgPrefix(authorityIdStr) ==> id == -1 && KeepsActorFields() && crs == old(crs)
      ensures old(crs) != null && !HasEpsgPrefix(authorityIdStr) ==> unchanged(old(crs))
      ensures HasEpsgPrefix(authorityIdStr) ==>
        var code := ProjectionCode(authorityIdStr);
        && tiles == [] && rootProjection == authorityIdStr && rootWkt == ""
        && extents == EmptyExtents && croppedExtents == EmptyExtents
        && crs != null && fresh(crs) && crs.origin == origin && crs.authorityId == id
        && (IsEpsgIDValid(code) && !origin.IsZero() ==> id == code)
        && (!(IsEpsgIDValid(code) && !origin.IsZero()) ==>
              id == if settingsProjection.Some? && IsEpsgIDValid(settingsProjection.value) then settingsProjection.value
                    else if IsEpsgIDValid(code) then code
                    else 0)
    {
      if !HasEpsgPrefix(authorityIdStr) {
        return -1;
      }
      tiles := [];
      ResetCRS();
      rootProjection := authorityIdStr;
      rootWkt := "";
      var c := GetCRS(gdal, toGeog);
      c.SetOrigin(origin);
      id := c.GetAuthorityID(settingsProjection, gdal.settingsWkt);
    }

    /** UpdateLocationToGeometries: adds the delta to every point of every spline and landcover shape. */
    method UpdateLocationToGeometries(delta: Vec3)
      modifies this
      ensures tiles == ShiftedTiles(old(tiles), delta)
      ensures rootProjection == old(rootProjection) && rootWkt == old(rootWkt) && extents == old(extents)
      ensures croppedExtents == old(croppedExtents) && xyOffset == old(xyOffset) && crs == old(crs)
      ensures vectorDataScale == old(vectorDataScale) && landscapeScaleFactor == old(landscapeScaleFactor)
      ensures usePreciseScale == old(usePreciseScale)
    {
      var t := 0;
      while t < |tiles|
        invariant 0 <= t <= |tiles| == |old(tiles)|
        invariant forall k :: 0 <= k < t ==> tiles[k] == ShiftedTile(old(tiles)[k], delta)
        invariant forall k :: t <= k < |tiles| ==> tiles[k] == old(tiles)[k]
        invariant rootProjection == old(rootProjection) && rootWkt == old(rootWkt) && extents == old(extents)
        invariant croppedExtents == old(croppedExtents) && xyOffset == old(xyOffset) && crs == old(crs)
        invariant vectorDataScale == old(vectorDataScale) && landscapeScaleFactor == old(landscapeScaleFactor)
        invariant usePreciseScale == old(usePreciseScale)
      {
        var splines := ShiftShapes(tiles[t].splineGeometries, delta);
        var shapes := ShiftShapes(tiles[t].landcoverShapes, delta);
        tiles := tiles[t := tiles[t].(splineGeometries := splines, landcoverShapes := shapes)];
        t := t + 1;
      }
    }

    /** SetOffsetXYFromLeftTopMostTile: XYOffset becomes the smallest tile X and Y location. */
    method SetOffsetXYFromLeftTopMostTile()
      modifies this
      ensures tiles == [] ==> xyOffset == old(xyOffset)
      ensures tiles != [] ==> (
        && xyOffset.z == 0.0
        && (exists i :: 0 <= i < |tiles| && xyOffset.x == tiles[i].locationX)
        && (exists i :: 0 <= i < |tiles| && xyOffset.y == tiles[i].locationY)
        && (forall i :: 0 <= i < |tiles| ==> xyOffset.x <= tiles[i].locationX && xyOffset.y <= tiles[i].locationY))
      ensures tiles == old(tiles) && rootProjection == old(rootProjection) && rootWkt == old(rootWkt)
      ensures extents == old(extents) && croppedExtents == old(croppedExtents) && crs == old(crs)
      ensures vectorDataScale == old(vectorDataScale) && landscapeScaleFactor == old(landscapeScaleFactor)
      ensures usePreciseScale == old(usePreciseScale)
    {
      if |tiles| == 0 {
        return;
      }
      var leftMost := 0;
      var topMost := 0;
      var i := 0;
      while i < |tiles|
        invariant 0 <= i <= |tiles|
        invariant 0 <= leftMost < |tiles| && 0 <= topMost < |tiles|
        invariant forall k :: 0 <= k < i ==> tiles[leftMost].locationX <= tiles[k].locationX
        invariant forall k :: 0 <= k < i ==> tiles[topMost].locationY <= tiles[k].locationY
      {
        if tiles[i].locationX < tiles[leftMost].locationX {
          leftMost := i;
        }
        if tiles[i].locationY < tiles[topMost].locationY {
          topMost := i;
        }
        i := i + 1;
      }
      xyOffset := Vec3(tiles[leftMost].locationX, tiles[topMost].locationY, 0.0);
    }

    /** GetArea: the tiles' extents areas summed; never negative. */
    method GetArea() returns (area: real)
      ensures area == TotalArea(tiles)
      ensures area >= 0.0
    {
      area := 0.0;
      var i := 0;
      while i < |tiles|
        invariant 0 <= i <= |tiles|
        invariant area == TotalArea(tiles[..i])
      {
        assert tiles[..i + 1][..i] == tiles[..i];
        area := area + tiles[i].extents.GetArea();
        i := i + 1;
      }
      assert tiles[..i] == tiles;
      TotalAreaNonNegative(tiles);
    }
  }
}
