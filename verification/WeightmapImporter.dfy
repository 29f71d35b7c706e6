/**
 * Weightmap rasterisation of landcover polygons (WeightmapImporter): the
 * crossing-number point-in-polygon test, per-pixel claiming of landscape
 * pixels by shapes, the landcover filter, and the assembly of one weight layer
 * per material layer with the default layer filling every unclaimed pixel.
 */
module WeightmapImporter {
  import opened Common
  import opened LandscapingStructs

  // ------------------------------------------------------- crossing number

  /** End point of edge i of the closed ring: the next point, the last wrapping to the first. */
  function EdgeEnd(points: seq<Vec3>, i: nat): Vec3
    requires i < |points|
  {
    if i + 1 < |points| then points[i + 1] else points[0]
  }

  /**
   * Edge a-b crosses the horizontal ray going right from p: the edge spans p.y with
   * the half-open rule (lower end included, upper end excluded) and the crossing
   * lies right of p. Interpolation is exact here (the source rounds it to float).
   */
  predicate Crosses(a: Vec3, b: Vec3, p: Vec3)
  {
    ((a.y <= p.y && b.y > p.y) || (a.y > p.y && b.y <= p.y))
    && p.x < a.x + (p.y - a.y) / (b.y - a.y) * (b.x - a.x)
  }

  /** Number of crossing edges among the first n edges. */
  function Crossings(points: seq<Vec3>, p: Vec3, n: nat): nat
    requires n <= |points|
  {
    if n == 0 then 0
    else Crossings(points, p, n - 1) + (if Crosses(points[n - 1], EdgeEnd(points, n - 1), p) then 1 else 0)
  }

  /** Parity of the crossings of the closed ring: 1 inside, 0 outside (even-odd rule). */
  method CrossingNumber(points: seq<Vec3>, point: Vec3) returns (c: int)
    requires |points| > 0
    ensures c == Crossings(points, point, |points|) % 2
    ensures c == 0 || c == 1
  {
    var crossingNumber := 0;
    var shapePoints := |points|;
    var closed := points + [points[0]];
    var i := 0;
    while i < shapePoints
      invariant 0 <= i <= shapePoints
      invariant crossingNumber == Crossings(points, point, i)
    {
      assert closed[i] == points[i] && closed[i + 1] == EdgeEnd(points, i);
      if (closed[i].y <= point.y && closed[i + 1].y > point.y)
        || (closed[i].y > point.y && closed[i + 1].y <= point.y)
      {
        var v := (point.y - closed[i].y) / (closed[i + 1].y - closed[i].y);
        if point.x < closed[i].x + v * (closed[i + 1].x - closed[i].x) {
          crossingNumber := crossingNumber + 1;
        }
      }
      i := i + 1;
    }
    c := if crossingNumber % 2 == 1 then 1 else 0;
  }

  /** No edge spans a height below every vertex or at or above every vertex. */
  lemma {:induction false} NoCrossingsOutsideYRange(points: seq<Vec3>, p: Vec3, n: nat)
    requires n <= |points|
    requires (forall i :: 0 <= i < |points| ==> points[i].y > p.y)
          || (forall i :: 0 <= i < |points| ==> points[i].y <= p.y)
    ensures Crossings(points, p, n) == 0
  {
    if n > 0 {
      NoCrossingsOutsideYRange(points, p, n - 1);
      assert !Crosses(points[n - 1], EdgeEnd(points, n - 1), p);
    }
  }

  // ---------------------------------------------------------- shape bounds

  /** The points as the bounds loop adds them: Z is 1 at even and -1 at odd indices. */
  function Lifted(points: seq<Vec3>): (r: seq<Vec3>)
    ensures |r| == |points|
  {
    seq(|points|, i requires 0 <= i < |points| =>
      Vec3(points[i].x, points[i].y, if i % 2 == 1 then -1.0 else 1.0))
  }

  function ShapeBounds(points: seq<Vec3>): Box
  {
    BoxOf(Lifted(points))
  }

  method ComputeShapeBounds(points: seq<Vec3>) returns (b: Box)
    ensures b == ShapeBounds(points)
  {
    var lifted := Lifted(points);
    b := InitBox;
    var i := 0;
    while i < |points|
      invariant 0 <= i <= |points|
      invariant b == BoxOf(lifted[..i])
    {
      assert lifted[..i + 1][..i] == lifted[..i];
      b := b.Add(Vec3(points[i].x, points[i].y, if i % 2 == 1 then -1.0 else 1.0));
      i := i + 1;
    }
    assert lifted[..|points|] == lifted;
  }

  /** With two or more points the bounds span Z in [-1, 1], so only X and Y decide for Z = 0. */
  lemma ShapeBoundsFlat(points: seq<Vec3>, p: Vec3)
    requires |points| >= 2 && p.z == 0.0
    ensures ShapeBounds(points).IsInsideOrOn(p) <==> ShapeBounds(points).IsInsideOrOnXY(p)
  {
    BoxOfContains(Lifted(points), 0);
    BoxOfContains(Lifted(points), 1);
  }

  /** A one-point shape's bounds have Z fixed at 1: no landscape pixel (Z = 0) is inside. */
  lemma SinglePointShapeBoundsExcludeFlat(q: Vec3, p: Vec3)
    requires p.z == 0.0
    ensures !ShapeBounds([q]).IsInsideOrOn(p)
  {
    assert Lifted([q]) == [Vec3(q.x, q.y, 1.0)];
    assert Lifted([q])[..0] == [];
  }

  // -------------------------------------------------------------- IsInShape

  /** The crossing test after the bounding-box test. */
  predicate InShape(points: seq<Vec3>, p: Vec3)
  {
    |points| > 0 && ShapeBounds(points).IsInsideOrOn(p) && Crossings(points, p, |points|) % 2 == 1
  }

  method IsInShape(shapeBounds: Box, points: seq<Vec3>, p: Vec3) returns (inside: bool)
    requires |points| > 0
    ensures !shapeBounds.IsInsideOrOn(p) ==> !inside
    ensures inside <==> shapeBounds.IsInsideOrOn(p) && Crossings(points, p, |points|) % 2 == 1
  {
    if shapeBounds.IsInsideOrOn(p) {
      var c := CrossingNumber(points, p);
      return c > 0;
    }
    return false;
  }

  /** A point whose height is outside [lowest vertex, highest vertex) is never in the shape. */
  lemma NotInShapeOutsideYRange(points: seq<Vec3>, p: Vec3)
    requires (forall i :: 0 <= i < |points| ==> points[i].y > p.y)
          || (forall i :: 0 <= i < |points| ==> points[i].y <= p.y)
    ensures !InShape(points, p)
  {
    NoCrossingsOutsideYRange(points, p, |points|);
  }

  // ------------------------------------------------------------ pixel grid

  /**
   * The landscape's pixel lattice in level units: the tile location times the
   * landscape scale factor is the corner, the landscape scale the spacing.
   */
  datatype PixelGrid = PixelGrid(x0: real, y0: real, dx: real, dy: real)

  function PixelPoint(g: PixelGrid, x: int, y: int): Vec3
  {
    Vec3(g.x0 + x as real * g.dx, g.y0 + y as real * g.dy, 0.0)
  }

  /** The point of row-major pixel k on a grid `width` pixels wide. */
  function PixelAt(g: PixelGrid, width: nat, k: nat): Vec3
  {
    if width == 0 then PixelPoint(g, 0, 0) else PixelPoint(g, k % width, k / width)
  }

  /** Some shape of the list contains the point. */
  predicate Covered(shapes: seq<VectorData>, p: Vec3)
  {
    exists i :: 0 <= i < |shapes| && InShape(shapes[i].points, p)
  }

  /** Every shape has at least one point, as the mapped shapes of a tile do. */
  predicate NonEmptyShapes(shapes: seq<VectorData>)
  {
    forall i :: 0 <= i < |shapes| ==> |shapes[i].points| > 0
  }

  // ------------------------------------------------------- landcover filter

  /** One copy of the shape for every class in the list that equals its feature class. */
  function ShapeCopies(shape: VectorData, classes: seq<string>): (r: seq<VectorData>)
    ensures forall g :: g in r ==> g == shape
    ensures shape.featureClass in classes <==> |r| > 0
  {
    if classes == [] then []
    else
      var last := classes[|classes| - 1];
      var rest := ShapeCopies(shape, classes[..|classes| - 1]);
      assert classes == classes[..|classes| - 1] + [last];
      rest + (if shape.featureClass == last then [shape] else [])
  }

  /** The shapes whose feature class is listed, in order, each once per matching entry. */
  function MatchingShapes(shapes: seq<VectorData>, classes: seq<string>): (r: seq<VectorData>)
  {
    if shapes == [] then []
    else MatchingShapes(shapes[..|shapes| - 1], classes) + ShapeCopies(shapes[|shapes| - 1], classes)
  }

  /** Exactly the shapes of a listed class survive the filter. */
  lemma {:induction false} MatchingShapesExact(shapes: seq<VectorData>, classes: seq<string>)
    ensures forall g :: g in MatchingShapes(shapes, classes) <==> g in shapes && g.featureClass in classes
  {
    if shapes != [] {
      var init, last := shapes[..|shapes| - 1], shapes[|shapes| - 1];
      MatchingShapesExact(init, classes);
      assert shapes == init + [last];
      forall g ensures g in MatchingShapes(shapes, classes) <==> g in shapes && g.featureClass in classes {
        if g in ShapeCopies(last, classes) {
          assert g == last;
        }
        if g == last && g.featureClass in classes {
          var c := ShapeCopies(last, classes);
          assert c[0] in c;
        }
      }
    }
  }

  lemma MatchingShapesNonEmpty(shapes: seq<VectorData>, classes: seq<string>)
    requires NonEmptyShapes(shapes)
    ensures NonEmptyShapes(MatchingShapes(shapes, classes))
  {
    MatchingShapesExact(shapes, classes);
    var r := MatchingShapes(shapes, classes);
    forall i | 0 <= i < |r| ensures |r[i].points| > 0 {
      assert r[i] in shapes;
    }
  }

  /**
   * The tile's mapped shapes (`geoms`, as the vector tile factory delivers them
   * uncropped) filtered to the given feature classes, compared case-sensitively.
   */
  method GetLandcoverShapes(geoms: seq<VectorData>, featureClasses: seq<string>) returns (outGeom: seq<VectorData>)
    ensures outGeom == MatchingShapes(geoms, featureClasses)
    ensures forall g :: g in outGeom <==> g in geoms && g.featureClass in featureClasses
  {
    outGeom := [];
    var i := 0;
    while i < |geoms|
      invariant 0 <= i <= |geoms|
      invariant outGeom == MatchingShapes(geoms[..i], featureClasses)
    {
      var geom := geoms[i];
      var j := 0;
      ghost var before := outGeom;
      while j < |featureClasses|
        invariant 0 <= j <= |featureClasses|
        invariant outGeom == before + ShapeCopies(geom, featureClasses[..j])
      {
        assert featureClasses[..j + 1][..j] == featureClasses[..j];
        if geom.featureClass == featureClasses[j] {
          outGeom := outGeom + [geom];
        }
        j := j + 1;
      }
      assert featureClasses[..j] == featureClasses;
      assert geoms[..i + 1][..i] == geoms[..i];
      i := i + 1;
    }
    assert geoms[..i] == geoms;
    MatchingShapesExact(geoms, featureClasses);
  }

  // ----------------------------------------------------------- noise step

  /**
   * The noise step as written: for every pixel still weighted, the weight becomes
   * max(MinWeight, noise) and then pixel `defaultIndex` OF THE SAME LAYER gets
   * 255 minus it, processing pixels 0 .. n-1 in order.
   */
  function NoiseAsWritten(data: seq<int>, noise: seq<int>, minWeight: int, defaultIndex: nat, n: nat): (r: seq<int>)
    requires |noise| == |data| && n <= |data| && defaultIndex < |data|
    ensures |r| == |data|
  {
    if n == 0 then data
    else
      var e := NoiseAsWritten(data, noise, minWeight, defaultIndex, n - 1);
      if e[n - 1] > 0 then
        var w := if minWeight >= noise[n - 1] then minWeight else noise[n - 1];
        e[n - 1 := w][defaultIndex := 255 - w]
      else e
  }

  /** The noisy weight of a claimed pixel. */
  function NoisyWeight(minWeight: int, noise: int): int
  {
    if minWeight >= noise then minWeight else noise
  }

  /**
   * As written, a claimed pixel does not keep its noisy weight: two claimed pixels
   * with noise 100 and 200 leave pixel 0 at 55 instead of 100.
   */
  lemma NoiseAsWrittenLosesWeight()
    ensures NoiseAsWritten([255, 255], [100, 200], 64, 0, 2) == [55, 200]
    ensures NoiseAsWritten([255, 255], [100, 200], 64, 0, 2)[0] != NoisyWeight(64, 100)
  {
    assert NoiseAsWritten([255, 255], [100, 200], 64, 0, 1) == [155, 255];
  }

  /**
   * The intended noise step: pixel i of the layer gets its noisy weight and pixel
   * i of the default layer the complement, so the two weights sum to 255.
   */
  method ApplyNoise(data: seq<int>, defaultData: seq<int>, noise: seq<int>, minWeight: int)
    returns (layer: seq<int>, defaultLayer: seq<int>)
    requires |defaultData| == |data| && |noise| == |data|
    ensures |layer| == |data| && |defaultLayer| == |data|
    ensures forall i :: 0 <= i < |data| && data[i] > 0 ==>
      layer[i] == NoisyWeight(minWeight, noise[i]) && layer[i] + defaultLayer[i] == 255
    ensures forall i :: 0 <= i < |data| && data[i] <= 0 ==>
      layer[i] == data[i] && defaultLayer[i] == defaultData[i]
  {
    layer, defaultLayer := data, defaultData;
    var i := 0;
    while i < |data|
      invariant 0 <= i <= |data|
      invariant |layer| == |data| && |defaultLayer| == |data|
      invariant forall k :: 0 <= k < i && data[k] > 0 ==>
        layer[k] == NoisyWeight(minWeight, noise[k]) && layer[k] + defaultLayer[k] == 255
      invariant forall k :: 0 <= k < |data| && (k >= i || data[k] <= 0) ==>
        layer[k] == data[k] && defaultLayer[k] == defaultData[k]
    {
      if layer[i] > 0 {
        layer := layer[i := NoisyWeight(minWeight, noise[i])];
        defaultLayer := defaultLayer[i := 255 - layer[i]];
      }
      i := i + 1;
    }
  }

  // --------------------------------------------------------- layer infos

  /** FLandscapeImportLayerInfo: a layer name and one weight byte per pixel. */
  datatype LayerInfo = LayerInfo(layerName: string, layerData: seq<int>)

  /** A layer painted from landcover shapes: weight-blended and not the default layer. */
  predicate IsShapeLayer(layer: MaterialLayerSettings, defaultLayer: string)
  {
    layer.weightBlended && layer.name != defaultLayer
  }

  function ActiveLanduseTypes(list: seq<Landuse>): (r: seq<string>)
    ensures forall t :: t in r <==> exists i :: 0 <= i < |list| && list[i].active && list[i].landuseType == t
  {
    if list == [] then []
    else
      var rest := ActiveLanduseTypes(list[1..]);
      assert forall i :: 1 <= i < |list| ==> list[i] == list[1..][i - 1];
      (if list[0].active then [list[0].landuseType] else []) + rest
  }

  /** Index of the last layer among the first n named `defaultLayer`, or 0. */
  function DefaultIndex(layers: seq<MaterialLayerSettings>, defaultLayer: string, n: nat): (d: nat)
    requires n <= |layers|
    ensures n > 0 ==> d < n
    ensures d > 0 ==> d < n && layers[d].name == defaultLayer
  {
    if n == 0 then 0
    else if layers[n - 1].name == defaultLayer then n - 1
    else DefaultIndex(layers, defaultLayer, n - 1)
  }

  predicate ValidNoise(layers: seq<MaterialLayerSettings>, pixels: nat)
  {
    forall i :: 0 <= i < |layers| && layers[i].noise.Some? ==> |layers[i].noise.value| == pixels
  }

  /** At most one shape layer has weight on any pixel. */
  predicate ClaimsDisjoint(infos: seq<LayerInfo>, layers: seq<MaterialLayerSettings>, defaultLayer: string, pixels: nat)
    requires Shaped(infos, layers, pixels)
  {
    forall i, j, k ::
      0 <= i < j < |infos| && 0 <= k < pixels
      && IsShapeLayer(layers[i], defaultLayer) && IsShapeLayer(layers[j], defaultLayer)
      ==> !(infos[i].layerData[k] > 0 && infos[j].layerData[k] > 0)
  }

  class WeightmapImporter {
    /** Pixels already claimed by some layer of the current GetLayerInfos call. */
    var usedLayerIndizes: seq<bool>

    constructor ()
      ensures usedLayerIndizes == []
    {
      usedLayerIndizes := [];
    }

    /**
     * Rasterises the shapes onto the resX x resY pixel grid: a pixel not yet
     * claimed that lies in some shape gets weight 255 and becomes claimed; every
     * other pixel stays 0. The engine's parallel loop is run sequentially.
     */
    method CreateWeightData(grid: PixelGrid, resX: nat, resY: nat, shapes: seq<VectorData>)
      returns (data: seq<int>)
      requires |usedLayerIndizes| == resX * resY
      requires NonEmptyShapes(shapes)
      modifies this
      ensures |data| == resX * resY && |usedLayerIndizes| == resX * resY
      ensures forall k :: 0 <= k < |data| ==> data[k] == 0 || data[k] == 255
      ensures forall k :: 0 <= k < |data| ==>
        (data[k] == 255 <==> !old(usedLayerIndizes)[k] && Covered(shapes, PixelAt(grid, resX, k)))
      ensures forall k :: 0 <= k < |data| ==>
        usedLayerIndizes[k] == (old(usedLayerIndizes)[k] || data[k] == 255)
    {
      var n := resX * resY;
      ghost var used0 := usedLayerIndizes;
      data := seq(n, _ => 0);
      var polygonBounds: seq<Box> := [];
      var s := 0;
      while s < |shapes|
        invariant 0 <= s <= |shapes| && |polygonBounds| == s
        invariant forall j :: 0 <= j < s ==> polygonBounds[j] == ShapeBounds(shapes[j].points)
        invariant usedLayerIndizes == used0
      {
        var b := ComputeShapeBounds(shapes[s].points);
        polygonBounds := polygonBounds + [b];
        s := s + 1;
      }
      var h := 0;
      ghost var done := 0;
      while h < resY
        invariant 0 <= h <= resY && done == h * resX <= n
        invariant |data| == n && |usedLayerIndizes| == n
        invariant forall k :: 0 <= k < done ==> Done(data, used0, usedLayerIndizes, shapes, grid, resX, k)
        invariant forall k :: done <= k < n ==> data[k] == 0 && usedLayerIndizes[k] == used0[k]
      {
        RowBound(h, resY, resX);
        ghost var dataBefore, usedBefore := data, usedLayerIndizes;
        data := FillRow(data, used0, grid, resX, h, polygonBounds, shapes);
        forall k | 0 <= k < done ensures Done(data, used0, usedLayerIndizes, shapes, grid, resX, k) {
          assert Done(dataBefore, used0, usedBefore, shapes, grid, resX, k);
        }
        done := done + resX;
        h := h + 1;
      }
      assert done == n;
      forall k | 0 <= k < n
        ensures data[k] == 0 || data[k] == 255
        ensures data[k] == 255 <==> !used0[k] && Covered(shapes, PixelAt(grid, resX, k))
        ensures usedLayerIndizes[k] == (used0[k] || data[k] == 255)
      {
        assert Done(data, used0, usedLayerIndizes, shapes, grid, resX, k);
      }
    }

    /** One row of the raster: pixels h*resX .. h*resX+resX-1 are decided, the rest untouched. */
    method FillRow(data0: seq<int>, ghost used0: seq<bool>, grid: PixelGrid, resX: nat, h: nat,
                   polygonBounds: seq<Box>, shapes: seq<VectorData>) returns (data: seq<int>)
      requires |data0| == |usedLayerIndizes| == |used0| && h * resX + resX <= |data0|
      requires NonEmptyShapes(shapes) && |polygonBounds| == |shapes|
      requires forall j :: 0 <= j < |shapes| ==> polygonBounds[j] == ShapeBounds(shapes[j].points)
      requires forall k :: h * resX <= k < |data0| ==> data0[k] == 0 && usedLayerIndizes[k] == used0[k]
      modifies this
      ensures |data| == |data0| && |usedLayerIndizes| == |data0|
      ensures forall k :: 0 <= k < h * resX ==> data[k] == data0[k] && usedLayerIndizes[k] == old(usedLayerIndizes)[k]
      ensures forall k :: h * resX <= k < h * resX + resX ==> Done(data, used0, usedLayerIndizes, shapes, grid, resX, k)
      ensures forall k :: h * resX + resX <= k < |data| ==> data[k] == 0 && usedLayerIndizes[k] == used0[k]
    {
      data := data0;
      var y := grid.y0 + h as real * grid.dy;
      var dataOffset := h * resX;
      ghost var usedStart := usedLayerIndizes;
      var w := 0;
      while w < resX
        invariant 0 <= w <= resX
        invariant |data| == |data0| && |usedLayerIndizes| == |data0|
        invariant RowPrefixDone(data, usedLayerIndizes, data0, usedStart, used0, shapes, grid, resX, dataOffset, dataOffset + w)
      {
        RowMajor(h, w, resX);
        var x := grid.x0 + w as real * grid.dx;
        assert Vec3(x, y, 0.0) == PixelAt(grid, resX, dataOffset + w);
        ghost var dataBefore, usedBefore := data, usedLayerIndizes;
        data := ClaimPixel(data, dataOffset + w, Vec3(x, y, 0.0), polygonBounds, shapes);
        ClaimedPixelDone(dataBefore, usedBefore, data, usedLayerIndizes, data0, usedStart, used0, shapes, grid, resX,
                         dataOffset, dataOffset + w);
        w := w + 1;
      }
    }

    /** A free pixel inside some shape gets weight 255 and is claimed; nothing else changes. */
    method ClaimPixel(data0: seq<int>, k: nat, pt: Vec3, polygonBounds: seq<Box>, shapes: seq<VectorData>)
      returns (data: seq<int>)
      requires k < |data0| == |usedLayerIndizes| && data0[k] == 0
      requires NonEmptyShapes(shapes) && |polygonBounds| == |shapes|
      requires forall j :: 0 <= j < |shapes| ==> polygonBounds[j] == ShapeBounds(shapes[j].points)
      modifies this
      ensures |data| == |data0| && |usedLayerIndizes| == |data0|
      ensures forall j :: 0 <= j < |data| && j != k ==> data[j] == data0[j] && usedLayerIndizes[j] == old(usedLayerIndizes)[j]
      ensures data[k] == 0 || data[k] == 255
      ensures data[k] == 255 <==> !old(usedLayerIndizes)[k] && Covered(shapes, pt)
      ensures usedLayerIndizes[k] == (old(usedLayerIndizes)[k] || data[k] == 255)
    {
      data := data0;
      if !usedLayerIndizes[k] {
        var si := 0;
        while si < |shapes|
          invariant 0 <= si <= |shapes|
          invariant forall j :: 0 <= j < si ==> !InShape(shapes[j].points, pt)
          invariant data == data0 && usedLayerIndizes == old(usedLayerIndizes)
        {
          var inside := IsInShape(polygonBounds[si], shapes[si].points, pt);
          if inside {
            data := data[k := 255];
            usedLayerIndizes := usedLayerIndizes[k := true];
            return;
          }
          si := si + 1;
        }
      }
    }

    /**
     * The weights of one material layer: zero unless it is a shape layer with
     * matching landcover shapes, in which case they are rasterised (claiming
     * pixels) and, with a noise texture, put through the intended noise step,
     * which also yields the rewritten default layer when one was given.
     */
    method LayerData(layer: MaterialLayerSettings, defaultLayer: string, grid: PixelGrid, resX: nat, resY: nat,
                     landcoverShapes: seq<VectorData>, defaultData: Option<seq<int>>)
      returns (data: seq<int>, newDefault: Option<seq<int>>)
      requires |usedLayerIndizes| == resX * resY
      requires NonEmptyShapes(landcoverShapes)
      requires layer.noise.Some? ==> |layer.noise.value| == resX * resY
      requires defaultData.Some? ==> |defaultData.value| == resX * resY
      modifies this
      ensures |data| == resX * resY && |usedLayerIndizes| == resX * resY
      ensures newDefault.Some? ==> defaultData.Some? && |newDefault.value| == resX * resY
      ensures forall k :: 0 <= k < resX * resY && old(usedLayerIndizes)[k] ==> usedLayerIndizes[k]
      ensures !IsShapeLayer(layer, defaultLayer) ==>
        data == seq(resX * resY, _ => 0) && usedLayerIndizes == old(usedLayerIndizes) && newDefault == None
      ensures forall k :: 0 <= k < resX * resY && data[k] > 0 ==> !old(usedLayerIndizes)[k] && usedLayerIndizes[k]
    {
      var n := resX * resY;
      data := seq(n, _ => 0);
      newDefault := None;
      if IsShapeLayer(layer, defaultLayer) {
        var types := ActiveLanduseTypes(layer.landuseList);
        var shapes := GetLandcoverShapes(landcoverShapes, types);
        MatchingShapesNonEmpty(landcoverShapes, types);
        if |shapes| > 0 {
          data := CreateWeightData(grid, resX, resY, shapes);
          if layer.noise.Some? {
            var d, dd := ApplyNoise(data, if defaultData.Some? then defaultData.value else data,
                                    layer.noise.value, layer.minWeight);
            if defaultData.Some? {
              newDefault := Some(dd);
            }
            data := d;
          }
        }
      }
    }

    /**
     * Builds one layer per material layer (empty when no level is loaded). A
     * shape layer is rasterised from the tile's landcover shapes of its active
     * landuse types, with the intended noise step when it has a noise texture;
     * afterwards every pixel no layer claimed gets weight 255 in the default
     * layer (the last layer named `defaultLayer`, else the first layer).
     */
    method GetLayerInfos(worldLoaded: bool, layers: seq<MaterialLayerSettings>, defaultLayer: string,
                         grid: PixelGrid, resX: nat, resY: nat, landcoverShapes: seq<VectorData>)
      returns (infos: seq<LayerInfo>)
      requires NonEmptyShapes(landcoverShapes)
      requires ValidNoise(layers, resX * resY)
      modifies this
      ensures !worldLoaded ==> infos == [] && usedLayerIndizes == old(usedLayerIndizes)
      ensures worldLoaded ==> |infos| == |layers| && |usedLayerIndizes| == resX * resY
      ensures worldLoaded ==> forall j :: 0 <= j < |infos| ==>
        infos[j].layerName == layers[j].name && |infos[j].layerData| == resX * resY
      ensures worldLoaded ==> ClaimsDisjoint(infos, layers, defaultLayer, resX * resY)
      ensures worldLoaded && |layers| > 0 ==> forall k :: 0 <= k < resX * resY && !usedLayerIndizes[k] ==>
        infos[DefaultIndex(layers, defaultLayer, |layers|)].layerData[k] == 255
    {
      infos := [];
      if !worldLoaded {
        return;
      }
      var n := resX * resY;
      usedLayerIndizes := seq(n, _ => false);
      var defaultLayerIndex;
      infos, defaultLayerIndex := BuildLayers(layers, defaultLayer, grid, resX, resY, landcoverShapes);
      if |infos| > 0 {
        var target := FillUnused(infos[defaultLayerIndex].layerData);
        FillKeepsDisjoint(infos, layers, defaultLayer, usedLayerIndizes, n, defaultLayerIndex, target);
        infos := infos[defaultLayerIndex := infos[defaultLayerIndex].(layerData := target)];
      }
    }

    /**
     * The layer loop: one layer per material layer in order, and the index of the
     * last layer named `defaultLayer` (0 when there is none).
     */
    method BuildLayers(layers: seq<MaterialLayerSettings>, defaultLayer: string,
                       grid: PixelGrid, resX: nat, resY: nat, landcoverShapes: seq<VectorData>)
      returns (infos: seq<LayerInfo>, defaultLayerIndex: nat)
      requires NonEmptyShapes(landcoverShapes)
      requires ValidNoise(layers, resX * resY)
      requires |usedLayerIndizes| == resX * resY
      requires forall k :: 0 <= k < resX * resY ==> !usedLayerIndizes[k]
      modifies this
      ensures |usedLayerIndizes| == resX * resY
      ensures Shaped(infos, layers, resX * resY) && |infos| == |layers|
      ensures defaultLayerIndex == DefaultIndex(layers, defaultLayer, |layers|)
      ensures ClaimsDisjoint(infos, layers, defaultLayer, resX * resY)
      ensures ClaimedUsed(infos, layers, defaultLayer, usedLayerIndizes, resX * resY)
    {
      var n := resX * resY;
      infos := [];
      defaultLayerIndex := 0;
      var defaultSeen := false;
      var l := 0;
      while l < |layers|
        invariant 0 <= l <= |layers| && |usedLayerIndizes| == n
        invariant Shaped(infos, layers, n) && |infos| == l
        invariant defaultLayerIndex == DefaultIndex(layers, defaultLayer, l)
        invariant defaultSeen ==> defaultLayerIndex < l && layers[defaultLayerIndex].name == defaultLayer
        invariant ClaimsDisjoint(infos, layers, defaultLayer, n)
        invariant ClaimedUsed(infos, layers, defaultLayer, usedLayerIndizes, n)
      {
        var layer := layers[l];
        ghost var usedBefore := usedLayerIndizes;
        var defaultData := if defaultSeen then Some(infos[defaultLayerIndex].layerData) else None;
        var data, newDefault := LayerData(layer, defaultLayer, grid, resX, resY, landcoverShapes, defaultData);
        if newDefault.Some? {
          UpdateDefaultKeepsClaims(infos, layers, defaultLayer, usedBefore, n, defaultLayerIndex, newDefault.value);
          infos := infos[defaultLayerIndex := infos[defaultLayerIndex].(layerData := newDefault.value)];
        }
        AppendKeepsClaims(infos, layers, defaultLayer, usedBefore, usedLayerIndizes, n, LayerInfo(layer.name, data));
        infos := infos + [LayerInfo(layer.name, data)];
        if layer.name == defaultLayer {
          defaultLayerIndex := |infos| - 1;
          defaultSeen := true;
        }
        l := l + 1;
      }
    }

    /** Weight 255 on every pixel no layer claimed; claimed pixels keep their weight. */
    method FillUnused(data: seq<int>) returns (target: seq<int>)
      requires |data| == |usedLayerIndizes|
      ensures |target| == |data|
      ensures forall k :: 0 <= k < |data| ==> target[k] == if usedLayerIndizes[k] then data[k] else 255
    {
      target := data;
      var i := 0;
      while i < |target|
        invariant 0 <= i <= |target| == |data|
        invariant forall k :: 0 <= k < |data| ==> target[k] == if k < i && !usedLayerIndizes[k] then 255 else data[k]
      {
        if !usedLayerIndizes[i] {
          target := target[i := 255];
        }
        i := i + 1;
      }
    }
  }

  /** Layer j is named after material layer j and holds one weight per pixel. */
  predicate Shaped(infos: seq<LayerInfo>, layers: seq<MaterialLayerSettings>, pixels: nat)
  {
    |infos| <= |layers|
    && forall j :: 0 <= j < |infos| ==> infos[j].layerName == layers[j].name && |infos[j].layerData| == pixels
  }

  /** Every pixel a shape layer weights is marked used. */
  predicate ClaimedUsed(infos: seq<LayerInfo>, layers: seq<MaterialLayerSettings>, defaultLayer: string,
                        used: seq<bool>, pixels: nat)
    requires Shaped(infos, layers, pixels) && |used| == pixels
  {
    forall j, k ::
      0 <= j < |infos| && 0 <= k < pixels && IsShapeLayer(layers[j], defaultLayer) && infos[j].layerData[k] > 0
      ==> used[k]
  }

  /** Appending a layer that weights only pixels it newly claimed keeps the claims disjoint. */
  lemma AppendKeepsClaims(infos: seq<LayerInfo>, layers: seq<MaterialLayerSettings>, defaultLayer: string,
                          usedBefore: seq<bool>, used: seq<bool>, pixels: nat, info: LayerInfo)
    requires Shaped(infos, layers, pixels) && |infos| < |layers|
    requires |usedBefore| == pixels && |used| == pixels
    requires info.layerName == layers[|infos|].name && |info.layerData| == pixels
    requires ClaimsDisjoint(infos, layers, defaultLayer, pixels)
    requires ClaimedUsed(infos, layers, defaultLayer, usedBefore, pixels)
    requires forall k :: 0 <= k < pixels && usedBefore[k] ==> used[k]
    requires IsShapeLayer(layers[|infos|], defaultLayer) ==>
      forall k :: 0 <= k < pixels && info.layerData[k] > 0 ==> !usedBefore[k] && used[k]
    ensures Shaped(infos + [info], layers, pixels)
    ensures ClaimsDisjoint(infos + [info], layers, defaultLayer, pixels)
    ensures ClaimedUsed(infos + [info], layers, defaultLayer, used, pixels)
  {
    var r := infos + [info];
    assert forall j :: 0 <= j < |infos| ==> r[j] == infos[j];
  }

  /** Rewriting the default layer (never a shape layer) keeps every shape layer's claims. */
  lemma UpdateDefaultKeepsClaims(infos: seq<LayerInfo>, layers: seq<MaterialLayerSettings>, defaultLayer: string,
                                 used: seq<bool>, pixels: nat, d: nat, data: seq<int>)
    requires Shaped(infos, layers, pixels) && |used| == pixels
    requires d < |infos| && layers[d].name == defaultLayer && |data| == pixels
    requires ClaimsDisjoint(infos, layers, defaultLayer, pixels)
    requires ClaimedUsed(infos, layers, defaultLayer, used, pixels)
    ensures Shaped(infos[d := infos[d].(layerData := data)], layers, pixels)
    ensures ClaimsDisjoint(infos[d := infos[d].(layerData := data)], layers, defaultLayer, pixels)
    ensures ClaimedUsed(infos[d := infos[d].(layerData := data)], layers, defaultLayer, used, pixels)
  {
  }

  /** Weighting only unused pixels of one layer keeps the shape layers disjoint. */
  lemma FillKeepsDisjoint(infos: seq<LayerInfo>, layers: seq<MaterialLayerSettings>, defaultLayer: string,
                          used: seq<bool>, pixels: nat, d: nat, data: seq<int>)
    requires Shaped(infos, layers, pixels) && |used| == pixels
    requires d < |infos| && |data| == pixels
    requires ClaimsDisjoint(infos, layers, defaultLayer, pixels)
    requires ClaimedUsed(infos, layers, defaultLayer, used, pixels)
    requires forall k :: 0 <= k < pixels && data[k] > 0 ==> infos[d].layerData[k] > 0 || !used[k]
    ensures Shaped(infos[d := infos[d].(layerData := data)], layers, pixels)
    ensures ClaimsDisjoint(infos[d := infos[d].(layerData := data)], layers, defaultLayer, pixels)
  {
    var r := infos[d := infos[d].(layerData := data)];
    forall i, j, k | 0 <= i < j < |r| && 0 <= k < pixels
      && IsShapeLayer(layers[i], defaultLayer) && IsShapeLayer(layers[j], defaultLayer)
      ensures !(r[i].layerData[k] > 0 && r[j].layerData[k] > 0)
    {
      if i == d && r[i].layerData[k] > 0 && !used[k] {
        assert !(infos[j].layerData[k] > 0);
      } else if j == d && r[j].layerData[k] > 0 && !used[k] {
        assert !(infos[i].layerData[k] > 0);
      }
    }
  }

  /** Whether the raster claims pixel k: it was free and some shape contains its point. */
  ghost predicate Claims(used0: seq<bool>, shapes: seq<VectorData>, grid: PixelGrid, resX: nat, k: nat)
    requires k < |used0|
  {
    !used0[k] && Covered(shapes, PixelAt(grid, resX, k))
  }

  /** Pixel k holds its final weight and claim. */
  ghost predicate Done(data: seq<int>, used0: seq<bool>, used: seq<bool>, shapes: seq<VectorData>,
                       grid: PixelGrid, resX: nat, k: nat)
    requires k < |data| && k < |used0| && k < |used|
  {
    data[k] == (if Claims(used0, shapes, grid, resX, k) then 255 else 0)
    && used[k] == (used0[k] || Claims(used0, shapes, grid, resX, k))
  }

  /** Pixels below lo are untouched, lo .. hi-1 are decided, and from hi on still free. */
  ghost predicate RowPrefixDone(data: seq<int>, used: seq<bool>, data0: seq<int>, usedStart: seq<bool>, used0: seq<bool>,
                                shapes: seq<VectorData>, grid: PixelGrid, resX: nat, lo: nat, hi: nat)
  {
    |data| == |used| == |data0| == |usedStart| == |used0| && lo <= hi <= |data| &&
    (forall k :: 0 <= k < lo ==> data[k] == data0[k] && used[k] == usedStart[k]) &&
    (forall k :: lo <= k < hi ==> Done(data, used0, used, shapes, grid, resX, k)) &&
    (forall k :: hi <= k < |data| ==> data[k] == 0 && used[k] == used0[k])
  }

  /** Claiming pixel hi as ClaimPixel does decides it and keeps the rest of the row state. */
  lemma ClaimedPixelDone(dataB: seq<int>, usedB: seq<bool>, data: seq<int>, used: seq<bool>, data0: seq<int>,
                         usedStart: seq<bool>, used0: seq<bool>, shapes: seq<VectorData>, grid: PixelGrid, resX: nat,
                         lo: nat, hi: nat)
    requires RowPrefixDone(dataB, usedB, data0, usedStart, used0, shapes, grid, resX, lo, hi) && hi < |dataB|
    requires |data| == |dataB| && |used| == |dataB|
    requires forall j :: 0 <= j < |data| && j != hi ==> data[j] == dataB[j] && used[j] == usedB[j]
    requires data[hi] == 0 || data[hi] == 255
    requires data[hi] == 255 <==> !usedB[hi] && Covered(shapes, PixelAt(grid, resX, hi))
    requires used[hi] == (usedB[hi] || data[hi] == 255)
    ensures RowPrefixDone(data, used, data0, usedStart, used0, shapes, grid, resX, lo, hi + 1)
  {
    assert Done(data, used0, used, shapes, grid, resX, hi);
    forall k | lo <= k < hi ensures Done(data, used0, used, shapes, grid, resX, k) {
      assert Done(dataB, used0, usedB, shapes, grid, resX, k);
    }
  }
}
