/**
 * FLandscapingInfo: what the plugin remembers about one imported landscape
 * tile. The struct is held by value in the Tiles array, so it is a datatype
 * here; CalculateScale and CalculateLocation return the updated value.
 */
module LandscapingInfo {
  import opened Common
  import opened LandscapingStructs

  datatype LandscapingInfo = LandscapingInfo(
    extents: Extents,
    wgs84Extents: Extents,
    minAltitude: real,
    maxAltitude: real,
    landscapeScale: Vec3,
    locationX: real,
    locationY: real,
    locationZ: real,
    numberOfSections: int,
    quadsPerSection: int,
    importResolution: IntVec,
    landscapeResolution: IntVec,
    bounds: Box,
    meterPerPixelX: real,
    meterPerPixelY: real,
    filename: string,
    originalFilename: string,
    satelliteFilenames: seq<string>,
    projection: string,
    mapName: string,
    landcoverShapes: seq<VectorData>,
    splineGeometries: seq<VectorData>)
  {
    /**
     * The Z scale of a high-detail import: half of the 16-bit height range
     * (32768 levels of scale/128 cm each) spans the altitude range in cm.
     */
    function GetScaleZ(): (z: real)
      ensures z * 32768.0 / 128.0 == (maxAltitude - minAltitude) * 100.0
      ensures z >= 0.0 <==> maxAltitude >= minAltitude
    {
      (maxAltitude - minAltitude) / 5.12 * 2.0
    }

    /**
     * The landscape scale: the landscape's vertices times the scale cover
     * the raster's pixels times their size, in cm; Z is GetScaleZ for a
     * high-detail import and the user's ZScale otherwise. Nothing else changes.
     */
    function CalculateScale(options: RasterImportOptions): (r: LandscapingInfo)
      requires landscapeResolution.x != 0 && landscapeResolution.y != 0
      ensures r.landscapeScale.x * landscapeResolution.x as real
              == importResolution.x as real * meterPerPixelX * 100.0
      ensures r.landscapeScale.y * landscapeResolution.y as real
              == importResolution.y as real * Abs(meterPerPixelY) * 100.0
      ensures r.landscapeScale.z == if options.highDetailZScale then GetScaleZ() else options.zScale
      ensures r == this.(landscapeScale := r.landscapeScale)
    {
      var x := importResolution.x as real * meterPerPixelX / landscapeResolution.x as real * 100.0;
      var y := importResolution.y as real * Abs(meterPerPixelY) / landscapeResolution.y as real * 100.0;
      var z := if options.highDetailZScale then GetScaleZ() else options.zScale;
      this.(landscapeScale := Vec3(x, y, z))
    }

    /**
     * The landscape location in cm relative to the origin, Y flipped
     * (north is -Y), Z at the middle altitude; without a scale nothing changes.
     */
    function CalculateLocation(origin: Vec3): (r: LandscapingInfo)
      ensures landscapeScale.x == 0.0 || landscapeScale.y == 0.0 ==> r == this
      ensures landscapeScale.x != 0.0 && landscapeScale.y != 0.0 ==>
        && r.locationX / 100.0 + origin.x == extents.left
        && -r.locationY / 100.0 + origin.y == extents.top
        && r.locationZ / 100.0 == (minAltitude + maxAltitude) / 2.0
        && r == this.(locationX := r.locationX, locationY := r.locationY, locationZ := r.locationZ)
    {
      if landscapeScale.x == 0.0 || landscapeScale.y == 0.0 then this
      else
        this.(locationX := (extents.left - origin.x) * 100.0,
              locationY := -(extents.top - origin.y) * 100.0,
              locationZ := (maxAltitude - (maxAltitude - minAltitude) * 0.5) * 100.0)
    }

    /** True iff some spline geometry has exactly this id (case-sensitive). */
    method ContainsSplineGeometry(id: string) returns (found: bool)
      ensures found <==> exists i :: 0 <= i < |splineGeometries| && splineGeometries[i].id == id
    {
      found := ContainsId(splineGeometries, id);
    }

    /** True iff some landcover shape has exactly this id (case-sensitive). */
    method ContainsLandcoverShape(id: string) returns (found: bool)
      ensures found <==> exists i :: 0 <= i < |landcoverShapes| && landcoverShapes[i].id == id
    {
      found := ContainsId(landcoverShapes, id);
    }
  }

  /** The search loop both Contains* methods run. */
  method ContainsId(shapes: seq<VectorData>, id: string) returns (found: bool)
    ensures found <==> exists i :: 0 <= i < |shapes| && shapes[i].id == id
  {
    var i := 0;
    while i < |shapes|
      invariant 0 <= i <= |shapes|
      invariant forall k :: 0 <= k < i ==> shapes[k].id != id
    {
      if shapes[i].id == id {
        return true;
      }
      i := i + 1;
    }
    return false;
  }

  /** A default-constructed FLandscapingInfo. */
  const EmptyLandscapingInfo: LandscapingInfo :=
    LandscapingInfo(EmptyExtents, EmptyExtents, 65535.0, -65535.0, Zero3, 0.0, 0.0, 0.0, 0, 0,
                    IntVec(0, 0), IntVec(0, 0), InitBox, 0.0, 0.0, "", "", [], "", "", [], [])
}
