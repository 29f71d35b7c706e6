/** The per-file raster record of the Landscaping import (RasterData.h). */
module RasterData {
  import opened Common

  /** An engine FColor, one byte per channel. */
  datatype Color = Color(r: int, g: int, b: int, a: int)

  datatype RasterData = RasterData(
    minAltitude: real,
    maxAltitude: real,
    left: real,
    top: real,
    right: real,
    bottom: real,
    location: Vec3,
    numberOfSections: int,
    quadsPerSection: int,
    importResolution: IntVec,
    landscapeResolution: IntVec,
    meterPerPixel: Vec3,
    filename: string,
    originalFilename: string,
    projection: string,
    projectionWkt: string,
    rasterBandData: seq<seq<real>>,
    colorBandData: seq<seq<Color>>,
    noDataValue: real,
    error: string,
    hasNoData0: bool,
    mapboxImport: bool,
    bandCount: int)
  {
    /** Overlaps and touching edges both count as overlap. */
    predicate IsOverlapping(other: RasterData)
    {
      if left > other.right || other.left > right then false
      else if top < other.bottom || other.top < bottom then false
      else true
    }

    predicate WellFormed()
    {
      left <= right && bottom <= top
    }
  }

  /** The sentinel altitudes a fresh record starts with. */
  const MinAltitudeSentinel: real := 65535.0
  const MaxAltitudeSentinel: real := -65535.0

  /** A default-constructed record. */
  function Default(): (d: RasterData)
    ensures d.bandCount == 1
    ensures d.importResolution == IntVec(0, 0) && d.landscapeResolution == IntVec(0, 0)
    ensures d.meterPerPixel.IsZero() && d.error == "" && d.rasterBandData == []
    ensures d.minAltitude > d.maxAltitude
    ensures d.left == d.right == d.top == d.bottom == 0.0
  {
    RasterData(MinAltitudeSentinel, MaxAltitudeSentinel, 0.0, 0.0, 0.0, 0.0, Zero3, 0, 0,
      IntVec(0, 0), IntVec(0, 0), Zero3, "", "", "", "", [], [], 0.0, "", false, false, 1)
  }

  /** A record carrying only an error message, as data sources report failures. */
  function WithError(msg: string): (d: RasterData)
    ensures d.error == msg && d.rasterBandData == [] && d.bandCount == 1
  {
    Default().(error := msg)
  }

  lemma OverlappingSymmetric(a: RasterData, b: RasterData)
    ensures a.IsOverlapping(b) <==> b.IsOverlapping(a)
  {
  }

  /** Touching edges count: a raster whose right edge is another's left edge overlaps it. */
  lemma TouchingEdgesOverlap(a: RasterData, b: RasterData)
    requires a.WellFormed() && b.WellFormed()
    requires a.right == b.left && a.bottom == b.bottom && a.top == b.top
    ensures a.IsOverlapping(b)
  {
  }

  lemma WellFormedOverlapsItself(a: RasterData)
    ensures a.IsOverlapping(a) <==> a.WellFormed()
  {
  }

  /**
   * Because the default minimum lies above the default maximum, folding the first
   * altitude of the representable range into a fresh record replaces both.
   */
  lemma FirstFoldReplacesSentinels(h: real)
    requires -65535.0 <= h <= 65535.0
    ensures Min(Default().minAltitude, h) == h
    ensures Max(Default().maxAltitude, h) == h
  {
  }
}
