/**
 * The shared records of the Landscaping plugin: the geographic bounding box
 * FExtents (bottom, left, top, right in one reference system), the engine's
 * axis-aligned FBox, a vector feature FVectorData, and the material-layer
 * settings with their landuse entries.
 */
module LandscapingStructs {
  import opened Common

  /** The box; the default-constructed box is all zeros and reads as "empty". */
  datatype Extents = Extents(bottom: real, left: real, top: real, right: real)
  {
    predicate IsEmpty()
    {
      bottom == 0.0 && left == 0.0 && top == 0.0 && right == 0.0
    }

    /** Reset zeroes the four sides; the value semantics of the struct make it a new value. */
    function Reset(): (r: Extents)
      ensures r.IsEmpty()
      ensures r == EmptyExtents
    {
      Extents(0.0, 0.0, 0.0, 0.0)
    }

    /** Sides compared with a tolerance of 0.1; `==` on FExtents is this predicate. */
    predicate Equals(other: Extents)
    {
      Abs(bottom - other.bottom) < 0.1 && Abs(left - other.left) < 0.1
      && Abs(top - other.top) < 0.1 && Abs(right - other.right) < 0.1
    }

    /** Overlaps and touching edges both count as overlap. */
    predicate IsOverlapping(other: Extents)
    {
      if left > other.right || other.left > right then false
      else if top < other.bottom || other.top < bottom then false
      else true
    }

    /** Only a proper overlap counts; a shared edge does not. */
    predicate IsOverlappingStrict(other: Extents)
    {
      if left >= other.right || other.left >= right then false
      else if top <= other.bottom || other.top <= bottom then false
      else true
    }

    /** Strictly inside `other` on all four sides. */
    predicate IsInside(other: Extents)
    {
      left > other.left && top < other.top && right < other.right && bottom > other.bottom
    }

    /** Area in square kilometres, for extents measured in metres. */
    function GetArea(): (a: real)
      ensures a >= 0.0
      ensures IsEmpty() ==> a == 0.0
      ensures left == right || top == bottom ==> a == 0.0
    {
      Abs(left - right) / 1000.0 * Abs(top - bottom) / 1000.0
    }

    /** Left of right and bottom below top. */
    predicate WellFormed()
    {
      left <= right && bottom <= top
    }
  }

  const EmptyExtents: Extents := Extents(0.0, 0.0, 0.0, 0.0)

  lemma ResetIsEmpty(e: Extents)
    ensures e.Reset().IsEmpty()
    ensures e.Reset().GetArea() == 0.0
  {
  }

  /** IsOverlapping does not depend on the order of its operands. */
  lemma OverlappingSymmetric(a: Extents, b: Extents)
    ensures a.IsOverlapping(b) <==> b.IsOverlapping(a)
    ensures a.IsOverlappingStrict(b) <==> b.IsOverlappingStrict(a)
  {
  }

  /** IsOverlapping in closed form: the two closed intervals meet on both axes. */
  lemma OverlappingMeansIntervalsMeet(a: Extents, b: Extents)
    ensures a.IsOverlapping(b) <==>
      (a.left <= b.right && b.left <= a.right && b.bottom <= a.top && a.bottom <= b.top)
    ensures a.IsOverlappingStrict(b) <==>
      (a.left < b.right && b.left < a.right && b.bottom < a.top && a.bottom < b.top)
  {
  }

  /** Two boxes that share only an edge overlap, but not strictly. */
  lemma SharedEdgeCountsAsOverlap(a: Extents, b: Extents)
    requires a.WellFormed() && b.WellFormed()
    requires a.right == b.left && a.bottom == b.bottom && a.top == b.top
    ensures a.IsOverlapping(b)
    ensures !a.IsOverlappingStrict(b)
  {
  }

  lemma StrictImpliesOverlapping(a: Extents, b: Extents)
    ensures a.IsOverlappingStrict(b) ==> a.IsOverlapping(b)
  {
  }

  /** Equals (and thereby `==` on FExtents) is reflexive and symmetric. */
  lemma EqualsReflexiveSymmetric(a: Extents, b: Extents)
    ensures a.Equals(a)
    ensures a.Equals(b) <==> b.Equals(a)
  {
  }

  /** The 0.1 tolerance makes Equals intransitive: three boxes 0.06 apart. */
  lemma EqualsNotTransitive()
    ensures Extents(0.0, 0.0, 0.0, 0.0).Equals(Extents(0.06, 0.0, 0.0, 0.0))
    ensures Extents(0.06, 0.0, 0.0, 0.0).Equals(Extents(0.12, 0.0, 0.0, 0.0))
    ensures !Extents(0.0, 0.0, 0.0, 0.0).Equals(Extents(0.12, 0.0, 0.0, 0.0))
  {
  }

  /** A well-formed box strictly inside another also overlaps it. */
  lemma InsideImpliesOverlapping(a: Extents, b: Extents)
    requires a.WellFormed()
    ensures a.IsInside(b) ==> a.IsOverlapping(b) && a.IsOverlappingStrict(b)
  {
  }

  /** A well-formed box overlaps itself. */
  lemma WellFormedOverlapsItself(a: Extents)
    ensures a.IsOverlapping(a) <==> a.WellFormed()
  {
  }

  // ------------------------------------------------------------------ FBox

  /** The engine's FBox: a min/max corner pair and whether any point was added. */
  datatype Box = Box(min: Vec3, max: Vec3, isValid: bool)
  {
    /** `Box += Point`: the first point sets both corners, later ones widen them. */
    function Add(p: Vec3): (b: Box)
      ensures b.isValid && b.IsInsideOrOn(p)
      ensures isValid ==> b.min.x <= min.x && b.min.y <= min.y && b.min.z <= min.z
      ensures isValid ==> b.max.x >= max.x && b.max.y >= max.y && b.max.z >= max.z
    {
      if isValid then
        Box(Vec3(Min(min.x, p.x), Min(min.y, p.y), Min(min.z, p.z)),
            Vec3(Max(max.x, p.x), Max(max.y, p.y), Max(max.z, p.z)), true)
      else Box(p, p, true)
    }

    /** Inclusive containment in all three axes (the validity flag is not consulted). */
    predicate IsInsideOrOn(p: Vec3)
    {
      min.x <= p.x <= max.x && min.y <= p.y <= max.y && min.z <= p.z <= max.z
    }

    predicate IsInsideOrOnXY(p: Vec3)
    {
      min.x <= p.x <= max.x && min.y <= p.y <= max.y
    }
  }

  /** `FBox(ForceInit)`: zero corners, not valid. */
  const InitBox: Box := Box(Zero3, Zero3, false)

  /** The box grown from InitBox by every point in order. */
  function BoxOf(points: seq<Vec3>): (b: Box)
    ensures b.isValid <==> |points| > 0
  {
    if points == [] then InitBox else BoxOf(points[..|points| - 1]).Add(points[|points| - 1])
  }

  /** A box grown from points contains each of them. */
  lemma {:induction false} BoxOfContains(points: seq<Vec3>, i: nat)
    requires i < |points|
    ensures BoxOf(points).IsInsideOrOn(points[i])
  {
    var n := |points| - 1;
    if i < n {
      BoxOfContains(points[..n], i);
      assert points[..n][i] == points[i];
    }
  }

  // ------------------------------------------------------------- FVectorData

  /** One vector feature: its original and engine-space points and attributes. */
  datatype VectorData = VectorData(
    id: string,
    show: bool,
    pointsOriginal: seq<Vec3>,
    points: seq<Vec3>,
    featureClass: string,
    name: string,
    geometryName: string,
    bounds: Box,
    stringAttributes: map<string, string>,
    integerAttributes: map<string, int>,
    integer64Attributes: map<string, int>,
    doubleAttributes: map<string, real>)

  /** A default-constructed FVectorData. */
  const EmptyVectorData: VectorData :=
    VectorData("", true, [], [], "", "", "", InitBox, map[], map[], map[], map[])

  // ------------------------------------------------ material layer settings

  /** One landuse type offered to a material layer. */
  datatype Landuse = Landuse(landuseType: string, active: bool, interactable: bool)

  /**
   * A material paint layer of the landscape material. `noise` stands for the
   * noise texture, already read and resampled to the landscape resolution.
   */
  datatype MaterialLayerSettings = MaterialLayerSettings(
    name: string,
    data: seq<int>,
    weightBlended: bool,
    landuseList: seq<Landuse>,
    tiling: int,
    minWeight: int,
    noise: Option<seq<int>>)

  function NewLayerSettings(name: string): (l: MaterialLayerSettings)
    ensures l.name == name && l.landuseList == [] && !l.weightBlended
    ensures l.tiling == 1 && l.minWeight == 64 && l.noise == None
  {
    MaterialLayerSettings(name, [], false, [], 1, 64, None)
  }

  // ---------------------------------------------------- import configuration

  /** One tiled-landscape configuration the engine's tiled import accepts. */
  datatype TileImportConfiguration = TileImportConfiguration(
    sizeX: int,
    numComponents: int,
    numSectionsPerComponent: int,
    numQuadsPerSection: int)

  /** The user's raster import options (the data-source pointer is not modelled). */
  datatype RasterImportOptions = RasterImportOptions(
    desiredMaxTileSize: int,
    defaultLayer: string,
    resampleToFirstTile: bool,
    smoothSteps: int,
    smoothEdges: bool,
    worldPartitionGridSize: int,
    mapboxImport: bool,
    highDetailZScale: bool,
    zScale: real,
    squareTiles: bool,
    nativeRasterPixelSize: bool,
    customRasterPixelSize: real,
    importAsMesh: bool,
    importSatImgAsDecal: bool,
    importSatImgAsVertexColor: bool,
    meshCollision: bool,
    updateLandscape: bool,
    fillMissing: bool,
    minHeightTolerance: int,
    zoomLevel: int,
    zoomSatellite: int)

  /** The options as a fresh RasterImportOptions holds them. */
  const DefaultImportOptions: RasterImportOptions :=
    RasterImportOptions(8192, "", true, 0, false, 16, false, true, 100.0, false, true, 1.0,
                        false, true, false, false, false, false, 200, 14, 16)
}
