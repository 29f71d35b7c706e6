/**
 * The heightmap set of one landscape tile (RasterLandscapeData): the raster
 * records read for it, their combined extents, finest pixel size and altitude
 * range, and the search for landscape resolutions the engine accepts.
 */
module RasterLandscapeData {
  import opened Common
  import opened LandscapingStructs
  import opened RasterData

  // --------------------------------------------------------------- summary

  /** The fields UpdateLandscapeData folds the records into. */
  datatype Summary = Summary(extents: Extents, meterPerPixel: Vec3, minAltitude: real, maxAltitude: real)

  /**
   * One step of the fold: a side is taken from the record while it is still 0 or
   * when the record reaches further out; the pixel size keeps the smallest X and
   * the smallest |Y| (again replacing 0); the altitude range widens.
   */
  function Step(s: Summary, d: RasterData): (r: Summary)
    ensures r.minAltitude <= s.minAltitude && r.minAltitude <= d.minAltitude
    ensures r.maxAltitude >= s.maxAltitude && r.maxAltitude >= d.maxAltitude
    ensures s.extents.left != 0.0 ==> r.extents.left <= s.extents.left
    ensures s.extents.bottom != 0.0 ==> r.extents.bottom <= s.extents.bottom
    ensures s.extents.right != 0.0 ==> r.extents.right >= s.extents.right
    ensures s.extents.top != 0.0 ==> r.extents.top >= s.extents.top
  {
    var e := s.extents;
    var left := if e.left == 0.0 || d.left < e.left then d.left else e.left;
    var right := if e.right == 0.0 || d.right > e.right then d.right else e.right;
    var top := if e.top == 0.0 || d.top > e.top then d.top else e.top;
    var bottom := if e.bottom == 0.0 || d.bottom < e.bottom then d.bottom else e.bottom;
    var mx := if s.meterPerPixel.x == 0.0 || d.meterPerPixel.x < s.meterPerPixel.x
              then d.meterPerPixel.x else s.meterPerPixel.x;
    var my := if s.meterPerPixel.y == 0.0 || Abs(d.meterPerPixel.y) < Abs(s.meterPerPixel.y)
              then d.meterPerPixel.y else s.meterPerPixel.y;
    Summary(Extents(bottom, left, top, right), Vec3(mx, my, s.meterPerPixel.z),
            Min(d.minAltitude, s.minAltitude), Max(d.maxAltitude, s.maxAltitude))
  }

  /** The fold over the records in order. */
  function Fold(s: Summary, datas: seq<RasterData>): Summary
    decreases |datas|
  {
    if datas == [] then s else Fold(Step(s, datas[0]), datas[1..])
  }

  /**
   * The altitude range only widens: the minimum ends at or below the start and
   * every record's minimum, the maximum at or above the start and every maximum.
   */
  lemma {:induction false} FoldWidensAltitude(s: Summary, datas: seq<RasterData>)
    decreases |datas|
    ensures Fold(s, datas).minAltitude <= s.minAltitude && Fold(s, datas).maxAltitude >= s.maxAltitude
    ensures forall i :: 0 <= i < |datas| ==>
      Fold(s, datas).minAltitude <= datas[i].minAltitude && Fold(s, datas).maxAltitude >= datas[i].maxAltitude
  {
    if datas != [] {
      FoldWidensAltitude(Step(s, datas[0]), datas[1..]);
      forall i | 1 <= i < |datas| ensures datas[i] == datas[1..][i - 1] {}
    }
  }

  predicate NoZeroSides(datas: seq<RasterData>)
  {
    forall i :: 0 <= i < |datas| ==>
      datas[i].left != 0.0 && datas[i].right != 0.0 && datas[i].top != 0.0 && datas[i].bottom != 0.0
  }

  /**
   * Once the extents have nonzero sides, and no record has a zero side, the
   * fold only widens them, and they cover every record.
   */
  lemma {:induction false} FoldWidensExtents(s: Summary, datas: seq<RasterData>)
    requires s.extents.left != 0.0 && s.extents.right != 0.0 && s.extents.top != 0.0 && s.extents.bottom != 0.0
    requires NoZeroSides(datas)
    decreases |datas|
    ensures var e := Fold(s, datas).extents;
      e.left <= s.extents.left && e.bottom <= s.extents.bottom
      && e.right >= s.extents.right && e.top >= s.extents.top
    ensures var e := Fold(s, datas).extents;
      forall i :: 0 <= i < |datas| ==>
        e.left <= datas[i].left && e.bottom <= datas[i].bottom && e.right >= datas[i].right && e.top >= datas[i].top
  {
    if datas != [] {
      var t := Step(s, datas[0]);
      assert t.extents.left != 0.0 && t.extents.right != 0.0 && t.extents.top != 0.0 && t.extents.bottom != 0.0;
      assert NoZeroSides(datas[1..]) by {
        forall i | 0 <= i < |datas[1..]| ensures datas[1..][i] == datas[i + 1] {}
      }
      FoldWidensExtents(t, datas[1..]);
      forall i | 1 <= i < |datas| ensures datas[i] == datas[1..][i - 1] {}
    }
  }

  // ----------------------------------------------------- resolution search

  /** Quads per section the engine offers, and sections per component. */
  const Quads: seq<int> := [15, 31, 63, 127, 255, 511, 1023]
  const Sections: seq<int> := [1, 2]

  /** The largest side the search reaches: 1023 quads, 2 sections, 255 components. */
  const MaxLandscapeSide: int := 1023 * 2 * 255 + 1

  /** A landscape side the engine accepts: quads * sections * components + 1. */
  predicate IsLandscapeSide(n: int, q: int, s: int, c: int)
  {
    q in Quads && s in Sections && 1 <= c <= 255 && n == q * s * c + 1
  }

  /**
   * The search for one raster, as written: quads and sections are tried from
   * small to large and components from 1 upwards (never past the quad count);
   * a side is found once quads*sections*components+1 reaches it. The result is
   * taken from the configuration the loops stopped at. `quadsOut`/`sectionsOut`
   * are the record's fields, overwritten with the configuration in use each
   * time a side is reached.
   */
  method FindResolution(width: int, height: int, sectionsIn: int, quadsIn: int)
    returns (resX: int, resY: int, quads: int, sections: int, componentsX: int, componentsY: int,
             foundWidth: bool, foundHeight: bool, sectionsOut: int, quadsOut: int)
    ensures IsLandscapeSide(resX, quads, sections, componentsX)
    ensures IsLandscapeSide(resY, quads, sections, componentsY)
    ensures foundWidth ==> resX >= width
    ensures foundHeight ==> resY >= height
    ensures width <= MaxLandscapeSide && height <= MaxLandscapeSide ==> foundWidth && foundHeight
    ensures (sectionsOut, quadsOut) == (sectionsIn, quadsIn) || (sectionsOut in Sections && quadsOut in Quads)
  {
    quads, sections := Quads[0], Sections[0];
    componentsX, componentsY := 1, 1;
    foundWidth, foundHeight := false, false;
    sectionsOut, quadsOut := sectionsIn, quadsIn;
    var q := 0;
    while q < 7
      invariant 0 <= q <= 7
      invariant quads in Quads && sections in Sections && 1 <= componentsX <= 255 && 1 <= componentsY <= 255
      invariant foundWidth ==> quads * sections * componentsX + 1 >= width
      invariant foundHeight ==> quads * sections * componentsY + 1 >= height
      invariant (sectionsOut, quadsOut) == (sectionsIn, quadsIn) || (sectionsOut in Sections && quadsOut in Quads)
      invariant q == 7 && width <= MaxLandscapeSide && height <= MaxLandscapeSide ==> foundWidth && foundHeight
    {
      quads := Quads[q];
      var s := 0;
      while s < 2
        invariant 0 <= s <= 2
        invariant quads in Quads && sections in Sections && 1 <= componentsX <= 255 && 1 <= componentsY <= 255
        invariant s > 0 ==> (foundWidth ==> quads * sections * componentsX + 1 >= width)
        invariant s > 0 ==> (foundHeight ==> quads * sections * componentsY + 1 >= height)
        invariant (sectionsOut, quadsOut) == (sectionsIn, quadsIn) || (sectionsOut in Sections && quadsOut in Quads)
        invariant quads == Quads[q]
        invariant s == 2 && q == 6 && width <= MaxLandscapeSide && height <= MaxLandscapeSide ==> foundWidth && foundHeight
      {
        sections := Sections[s];
        foundWidth, foundHeight := false, false;
        var c := 1;
        while c < 256
          invariant 1 <= c <= 256
          invariant quads in Quads && sections in Sections && 1 <= componentsX <= 255 && 1 <= componentsY <= 255
          invariant foundWidth ==> quads * sections * componentsX + 1 >= width
          invariant foundHeight ==> quads * sections * componentsY + 1 >= height
          invariant (sectionsOut, quadsOut) == (sectionsIn, quadsIn) || (sectionsOut in Sections && quadsOut in Quads)
          invariant sections == Sections[s]
          invariant c > 1 && !foundWidth ==> quads * sections * (c - 1) + 1 < width
          invariant c > 1 && !foundHeight ==> quads * sections * (c - 1) + 1 < height
        {
          if !foundWidth {
            componentsX := c;
          }
          if quads * sections * componentsX + 1 >= width {
            sectionsOut, quadsOut := sections, quads;
            foundWidth := true;
          }
          if !foundHeight {
            componentsY := c;
          }
          if quads * sections * componentsY + 1 >= height {
            sectionsOut, quadsOut := sections, quads;
            foundHeight := true;
          }
          if quads < c {
            break;
          }
          c := c + 1;
        }
        if quads < Max(componentsX as real, componentsY as real) as int {
          break;
        }
        s := s + 1;
      }
      if foundWidth && foundHeight {
        break;
      }
      q := q + 1;
    }
    resX := quads * sections * componentsX + 1;
    resY := quads * sections * componentsY + 1;
  }

  /** The record's landscape resolution has the engine's form on both axes. */
  ghost predicate HasLandscapeSides(d: RasterData)
  {
    exists q, s, cx, cy :: IsLandscapeSide(d.landscapeResolution.x, q, s, cx)
                          && IsLandscapeSide(d.landscapeResolution.y, q, s, cy)
  }

  /** FMath::Sign. */
  function Sign(x: real): real
  {
    if x > 0.0 then 1.0 else if x < 0.0 then -1.0 else 0.0
  }

  /**
   * Native pixel size: the finest X, and Y with its sign only when asked to
   * preserve it; custom size: the same value on both axes, Y carrying the
   * sign of the native Y when preserved. Z is 0.
   */
  function RasterPixelSize(meterPerPixel: Vec3, nativeRasterPixelSize: bool, customRasterPixelSize: real, preserveSign: bool): (p: Vec3)
    ensures p.z == 0.0
    ensures nativeRasterPixelSize ==> p.x == meterPerPixel.x && Abs(p.y) == Abs(meterPerPixel.y)
    ensures !nativeRasterPixelSize ==>
      p.x == customRasterPixelSize
      && Abs(p.y) == (if preserveSign && meterPerPixel.y == 0.0 then 0.0 else Abs(customRasterPixelSize))
    ensures !preserveSign && (nativeRasterPixelSize || customRasterPixelSize >= 0.0) ==> p.y >= 0.0
    ensures preserveSign && (nativeRasterPixelSize || customRasterPixelSize > 0.0) ==> Sign(p.y) == Sign(meterPerPixel.y)
  {
    var y := if preserveSign then meterPerPixel.y else Abs(meterPerPixel.y);
    var sign := if preserveSign then Sign(meterPerPixel.y) else 1.0;
    Vec3(if nativeRasterPixelSize then meterPerPixel.x else customRasterPixelSize,
         if nativeRasterPixelSize then y else customRasterPixelSize * sign,
         0.0)
  }

  class RasterLandscapeData {
    var rasterDatas: seq<RasterData>
    var meterPerPixel: Vec3
    /** FIntVector TileSize: X and Y only; its Z stays 0 throughout. */
    var tileSize: IntVec
    var numberTilesX: int
    var numberTilesY: int
    var rasterDataIndex: int
    var extents: Extents
    var minAltitude: real
    var maxAltitude: real

    /** The state after construction and after ResetRasterData. */
    predicate IsReset()
      reads this
    {
      rasterDatas == [] && meterPerPixel == Zero3 && extents.IsEmpty() && tileSize == IntVec(0, 0)
      && numberTilesX == 1 && numberTilesY == 1 && rasterDataIndex == 0
      && minAltitude == MinAltitudeSentinel && maxAltitude == MaxAltitudeSentinel
    }

    constructor ()
      ensures IsReset()
    {
      rasterDatas := [];
      meterPerPixel := Zero3;
      extents := EmptyExtents;
      tileSize := IntVec(0, 0);
      numberTilesX, numberTilesY := 1, 1;
      rasterDataIndex := 0;
      minAltitude, maxAltitude := MinAltitudeSentinel, MaxAltitudeSentinel;
    }

    /** Empty record list, zero pixel size and extents, one tile, altitude sentinels. */
    method ResetRasterData()
      modifies this
      ensures IsReset()
      ensures minAltitude > maxAltitude
    {
      rasterDatas := [];
      meterPerPixel := Zero3;
      extents := extents.Reset();
      tileSize := IntVec(0, 0);
      numberTilesX, numberTilesY := 1, 1;
      rasterDataIndex := 0;
      minAltitude, maxAltitude := 65535.0, -65535.0;
    }

    function CurrentSummary(): Summary
      reads this
    {
      Summary(extents, meterPerPixel, minAltitude, maxAltitude)
    }

    /** Folds every record into the extents, pixel size and altitude range. */
    method UpdateLandscapeData()
      modifies this
      ensures CurrentSummary() == Fold(old(CurrentSummary()), rasterDatas)
      ensures rasterDatas == old(rasterDatas) && tileSize == old(tileSize)
      ensures numberTilesX == old(numberTilesX) && numberTilesY == old(numberTilesY)
      ensures rasterDataIndex == old(rasterDataIndex)
      ensures minAltitude <= old(minAltitude) && maxAltitude >= old(maxAltitude)
    {
      var i := 0;
      while i < |rasterDatas|
        invariant 0 <= i <= |rasterDatas|
        invariant Fold(CurrentSummary(), rasterDatas[i..]) == Fold(old(CurrentSummary()), rasterDatas)
        invariant rasterDatas == old(rasterDatas) && tileSize == old(tileSize)
        invariant numberTilesX == old(numberTilesX) && numberTilesY == old(numberTilesY)
        invariant rasterDataIndex == old(rasterDataIndex)
      {
        assert rasterDatas[i..][1..] == rasterDatas[i + 1..];
        FoldRecord(rasterDatas[i]);
        i := i + 1;
      }
      FoldWidensAltitude(old(CurrentSummary()), rasterDatas);
    }

    /** One iteration of the fold: the record widens the extents, pixel size and altitude range. */
    method FoldRecord(data: RasterData)
      modifies this`extents, this`meterPerPixel, this`minAltitude, this`maxAltitude
      ensures CurrentSummary() == Step(old(CurrentSummary()), data)
    {
      ghost var expected := Step(CurrentSummary(), data);
      var e := extents;
      var left := if e.left == 0.0 || data.left < e.left then data.left else e.left;
      var right := if e.right == 0.0 || data.right > e.right then data.right else e.right;
      var top := if e.top == 0.0 || data.top > e.top then data.top else e.top;
      var bottom := if e.bottom == 0.0 || data.bottom < e.bottom then data.bottom else e.bottom;
      extents := Extents(bottom, left, top, right);
      var m := meterPerPixel;
      var mx := if m.x == 0.0 || data.meterPerPixel.x < m.x then data.meterPerPixel.x else m.x;
      var my := if m.y == 0.0 || Abs(data.meterPerPixel.y) < Abs(m.y) then data.meterPerPixel.y else m.y;
      meterPerPixel := Vec3(mx, my, m.z);
      minAltitude := Min(data.minAltitude, minAltitude);
      maxAltitude := Max(data.maxAltitude, maxAltitude);
      assert CurrentSummary() == expected;
    }

    /**
     * False, changing nothing, when there are no records; otherwise every record
     * gets landscape resolutions of the engine's form from FindResolution, at
     * least its import size on both axes when the search can reach that size.
     */
    method CalculateLandscapeResolution() returns (ok: bool)
      modifies this
      ensures ok <==> old(rasterDatas) != []
      ensures |rasterDatas| == |old(rasterDatas)|
      ensures forall i :: 0 <= i < |rasterDatas| ==>
        var d := rasterDatas[i];
        d == old(rasterDatas)[i].(landscapeResolution := d.landscapeResolution,
                                  numberOfSections := d.numberOfSections, quadsPerSection := d.quadsPerSection)
        && HasLandscapeSides(d)
        && (d.importResolution.x <= MaxLandscapeSide && d.importResolution.y <= MaxLandscapeSide ==>
              d.landscapeResolution.x >= d.importResolution.x && d.landscapeResolution.y >= d.importResolution.y)
      ensures extents == old(extents) && meterPerPixel == old(meterPerPixel)
      ensures minAltitude == old(minAltitude) && maxAltitude == old(maxAltitude)
    {
      if rasterDatas == [] {
        return false;
      }
      var index := 0;
      while index < |rasterDatas|
        invariant 0 <= index <= |rasterDatas| == |old(rasterDatas)|
        invariant forall i :: 0 <= i < |rasterDatas| ==>
          var d := rasterDatas[i];
          d == old(rasterDatas)[i].(landscapeResolution := d.landscapeResolution,
                                    numberOfSections := d.numberOfSections, quadsPerSection := d.quadsPerSection)
        invariant forall i :: 0 <= i < index ==> HasLandscapeSides(rasterDatas[i])
        invariant forall i :: 0 <= i < index ==>
          var d := rasterDatas[i];
          d.importResolution.x <= MaxLandscapeSide && d.importResolution.y <= MaxLandscapeSide ==>
            d.landscapeResolution.x >= d.importResolution.x && d.landscapeResolution.y >= d.importResolution.y
        invariant extents == old(extents) && meterPerPixel == old(meterPerPixel)
        invariant minAltitude == old(minAltitude) && maxAltitude == old(maxAltitude)
      {
        var data := rasterDatas[index];
        var resX, resY, q, s, cx, cy, _, _, sectionsOut, quadsOut :=
          FindResolution(data.importResolution.x, data.importResolution.y, data.numberOfSections, data.quadsPerSection);
        var d := data.(numberOfSections := sectionsOut, quadsPerSection := quadsOut,
                       landscapeResolution := IntVec(resX, resY));
        rasterDatas := rasterDatas[index := d];
        assert IsLandscapeSide(d.landscapeResolution.x, q, s, cx) && IsLandscapeSide(d.landscapeResolution.y, q, s, cy);
        assert HasLandscapeSides(d);
        index := index + 1;
      }
      return true;
    }

    /** The pixel size of this landscape's records under the import options. */
    function GetRasterPixelSize(nativeRasterPixelSize: bool, customRasterPixelSize: real, preserveSign: bool): (p: Vec3)
      reads this
      ensures p == RasterPixelSize(meterPerPixel, nativeRasterPixelSize, customRasterPixelSize, preserveSign)
    {
      RasterPixelSize(meterPerPixel, nativeRasterPixelSize, customRasterPixelSize, preserveSign)
    }
  }
}
