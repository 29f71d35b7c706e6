/**
 * The vector-tile factory's view of the shapes read from vector files: the list
 * of feature classes offered to the user, and the shapes of one tile mapped to
 * engine space, either cropped at the tile bounds or whole and ordered by their
 * lowest Y.
 */
module VectorTileFactory {
  import opened Common
  import opened LandscapingStructs
  import opened CoordinateReferenceSystem

  // ------------------------------------------------------ feature classes

  /** `TArray<FString>::Contains`: FString equality ignores case. */
  predicate ContainsIgnoreCase(list: seq<string>, s: string)
  {
    exists i :: 0 <= i < |list| && EqualsIgnoreCase(list[i], s)
  }

  /** `AddUnique` under the same case-insensitive equality. */
  function AddUnique(list: seq<string>, s: string): (r: seq<string>)
    ensures ContainsIgnoreCase(r, s)
    ensures ContainsIgnoreCase(list, s) ==> r == list
    ensures !ContainsIgnoreCase(list, s) ==> r == list + [s]
  {
    if ContainsIgnoreCase(list, s) then list
    else
      assert (list + [s])[|list|] == s;
      list + [s]
  }

  /** A shape takes part when its geometry name is in the filter, or the filter is empty. */
  predicate Selected(filter: seq<string>, shape: VectorData)
  {
    ContainsIgnoreCase(filter, shape.geometryName) || filter == []
  }

  /** The suffix " (<geometry name>)" removed from the end, compared ignoring case. */
  function StripGeomName(featureClass: string, geometryName: string): (r: string)
    ensures |r| <= |featureClass|
    ensures r == featureClass || r + " (" + geometryName + ")" == featureClass
            || EqualsIgnoreCase(featureClass[|r|..], " (" + geometryName + ")")
  {
    var suffix := " (" + geometryName + ")";
    if |suffix| <= |featureClass| && EqualsIgnoreCase(featureClass[|featureClass| - |suffix|..], suffix)
    then featureClass[..|featureClass| - |suffix|]
    else featureClass
  }

  /** The shape as the listing leaves it. */
  function Listed(filter: seq<string>, strip: bool, shape: VectorData): VectorData
  {
    if strip && Selected(filter, shape)
    then shape.(featureClass := StripGeomName(shape.featureClass, shape.geometryName))
    else shape
  }

  /** The feature classes of the (listed) selected shapes, in order, each kept once. */
  function FeatureClasses(shapes: seq<VectorData>, filter: seq<string>): seq<string>
  {
    if shapes == [] then []
    else
      var rest := FeatureClasses(shapes[..|shapes| - 1], filter);
      var last := shapes[|shapes| - 1];
      if Selected(filter, last) then AddUnique(rest, last.featureClass) else rest
  }

  /** One more shape extends the feature classes of the shapes before it. */
  lemma FeatureClassesStep(shapes: seq<VectorData>, i: nat, filter: seq<string>)
    requires i < |shapes|
    ensures FeatureClasses(shapes[..i + 1], filter) ==
      if Selected(filter, shapes[i]) then AddUnique(FeatureClasses(shapes[..i], filter), shapes[i].featureClass)
      else FeatureClasses(shapes[..i], filter)
  {
    assert shapes[..i + 1][..i] == shapes[..i];
  }

  /** No two listed classes are equal ignoring case. */
  predicate UniqueIgnoreCase(list: seq<string>)
  {
    forall i, j :: 0 <= i < j < |list| ==> !EqualsIgnoreCase(list[i], list[j])
  }

  /**
   * The list is duplicate-free (ignoring case), each entry is the feature class
   * of a selected shape, and every selected shape's class is listed.
   */
  lemma {:induction false} FeatureClassesExact(shapes: seq<VectorData>, filter: seq<string>)
    ensures UniqueIgnoreCase(FeatureClasses(shapes, filter))
    ensures forall c :: c in FeatureClasses(shapes, filter) ==>
      exists i :: 0 <= i < |shapes| && Selected(filter, shapes[i]) && shapes[i].featureClass == c
    ensures forall i :: 0 <= i < |shapes| && Selected(filter, shapes[i]) ==>
      ContainsIgnoreCase(FeatureClasses(shapes, filter), shapes[i].featureClass)
  {
    if shapes != [] {
      var init, last := shapes[..|shapes| - 1], shapes[|shapes| - 1];
      var rest := FeatureClasses(init, filter);
      FeatureClassesExact(init, filter);
      var r := FeatureClasses(shapes, filter);
      if Selected(filter, last) && !ContainsIgnoreCase(rest, last.featureClass) {
        assert r == rest + [last.featureClass];
        forall i, j | 0 <= i < j < |r| ensures !EqualsIgnoreCase(r[i], r[j]) {
          if j == |rest| {
            assert r[i] == rest[i];
          }
        }
      }
      forall c | c in r
        ensures exists i :: 0 <= i < |shapes| && Selected(filter, shapes[i]) && shapes[i].featureClass == c
      {
        if c in rest {
          var i :| 0 <= i < |init| && Selected(filter, init[i]) && init[i].featureClass == c;
          assert shapes[i] == init[i];
        } else {
          assert shapes[|shapes| - 1].featureClass == c;
        }
      }
      forall i | 0 <= i < |shapes| && Selected(filter, shapes[i])
        ensures ContainsIgnoreCase(r, shapes[i].featureClass)
      {
        if i < |init| {
          assert shapes[i] == init[i];
          var k :| 0 <= k < |rest| && EqualsIgnoreCase(rest[k], init[i].featureClass);
          assert r[k] == rest[k];
        }
      }
    }
  }

  // ----------------------------------------------------------- tile shapes

  /** Vertex j is kept: it, or a neighbour of it, lies in or on the bounds in X and Y. */
  predicate KeepPoint(conv: seq<Vec3>, bounds: Box, j: nat)
    requires j < |conv|
  {
    bounds.IsInsideOrOnXY(conv[j])
    || (j + 1 < |conv| && bounds.IsInsideOrOnXY(conv[j + 1]))
    || (j > 0 && bounds.IsInsideOrOnXY(conv[j - 1]))
  }

  /**
   * The engine-space point kept for vertex j: the vertex itself when inside the
   * bounds, otherwise its border crossing towards the inside neighbour (next
   * first), computed by `clip` (the engine's segment intersection with the four
   * sides, falling back to the vertex).
   */
  function CroppedPoint(conv: seq<Vec3>, bounds: Box, j: nat, clip: (Vec3, Vec3) -> Vec3): Vec3
    requires j < |conv| && KeepPoint(conv, bounds, j)
  {
    if bounds.IsInsideOrOnXY(conv[j]) then conv[j]
    else if j + 1 < |conv| && bounds.IsInsideOrOnXY(conv[j + 1]) then clip(conv[j], conv[j + 1])
    else clip(conv[j], conv[j - 1])
  }

  /** The converted points of a shape. */
  function Converted(crs: CoordinateReferenceSystem, points: seq<Vec3>): (r: seq<Vec3>)
    reads crs
    ensures |r| == |points|
    ensures forall j :: 0 <= j < |points| ==> r[j] == crs.ConvertCRSPointToUnreal(points[j])
  {
    seq(|points|, j requires 0 <= j < |points| reads crs => crs.ConvertCRSPointToUnreal(points[j]))
  }

  /** Some vertex of the shape is kept. */
  predicate AnyKept(conv: seq<Vec3>, bounds: Box)
  {
    exists j :: 0 <= j < |conv| && KeepPoint(conv, bounds, j)
  }

  /** The crop of a whole shape. */
  function Crop(crs: CoordinateReferenceSystem, shape: VectorData, bounds: Box, clip: (Vec3, Vec3) -> Vec3): VectorData
    reads crs
  {
    CroppedObject(shape, CropPoints(shape.points, Converted(crs, shape.points), bounds, clip, |shape.points|))
  }

  /** The original points kept by the crop, and their engine-space stand-ins. */
  function CropPoints(orig: seq<Vec3>, conv: seq<Vec3>, bounds: Box, clip: (Vec3, Vec3) -> Vec3, n: nat)
    : (r: (seq<Vec3>, seq<Vec3>))
    requires |orig| == |conv| && n <= |conv|
    ensures |r.0| == |r.1| <= n
    ensures (exists j :: 0 <= j < n && KeepPoint(conv, bounds, j)) <==> |r.0| > 0
  {
    if n == 0 then ([], [])
    else
      var rest := CropPoints(orig, conv, bounds, clip, n - 1);
      if KeepPoint(conv, bounds, n - 1)
      then (rest.0 + [orig[n - 1]], rest.1 + [CroppedPoint(conv, bounds, n - 1, clip)])
      else rest
  }

  /** The cropped copy of a shape: names, id and attributes, with the kept points. */
  function CroppedObject(shape: VectorData, kept: (seq<Vec3>, seq<Vec3>)): VectorData
  {
    EmptyVectorData.(name := shape.name, id := shape.id, geometryName := shape.geometryName,
      featureClass := shape.featureClass, stringAttributes := shape.stringAttributes,
      integerAttributes := shape.integerAttributes, integer64Attributes := shape.integer64Attributes,
      doubleAttributes := shape.doubleAttributes, pointsOriginal := kept.0, points := kept.1)
  }

  /** A copy mapped to engine space with its engine-space bounds; attributes are not copied. */
  function MappedObject(shape: VectorData, conv: seq<Vec3>): VectorData
  {
    EmptyVectorData.(name := shape.name, id := shape.id, geometryName := shape.geometryName,
      featureClass := shape.featureClass, bounds := BoxOf(conv),
      pointsOriginal := shape.points, points := conv)
  }

  /** Some vertex of the shape lies in or on the bounds in X and Y. */
  predicate Touches(conv: seq<Vec3>, bounds: Box)
  {
    exists j :: 0 <= j < |conv| && bounds.IsInsideOrOnXY(conv[j])
  }

  function MinY(v: VectorData): real
  {
    v.bounds.min.y
  }

  class VectorTileFactory {
    /** The shapes read from the vector files, in the level CRS. */
    var shapes: seq<VectorData>
    var hasVectorFiles: bool

    constructor ()
      ensures shapes == [] && !hasVectorFiles
    {
      shapes := [];
      hasVectorFiles := false;
    }

    /**
     * The distinct feature classes of the shapes whose geometry name is in the
     * filter (all shapes when it is empty). With `stripGeomName` the selected
     * shapes lose the " (<geometry name>)" suffix of their class first, in place.
     */
    method GetAvailableFeatureClasses(filterGeom: seq<string>, stripGeomName: bool) returns (featureClasses: seq<string>)
      modifies this
      ensures |shapes| == |old(shapes)|
      ensures forall i :: 0 <= i < |shapes| ==> shapes[i] == Listed(filterGeom, stripGeomName, old(shapes)[i])
      ensures featureClasses == FeatureClasses(shapes, filterGeom)
      ensures hasVectorFiles == old(hasVectorFiles)
    {
      featureClasses := [];
      var i := 0;
      while i < |shapes|
        invariant 0 <= i <= |shapes| == |old(shapes)|
        invariant forall k :: 0 <= k < |shapes| ==>
          shapes[k] == if k < i then Listed(filterGeom, stripGeomName, old(shapes)[k]) else old(shapes)[k]
        invariant featureClasses == FeatureClasses(shapes[..i], filterGeom)
        invariant hasVectorFiles == old(hasVectorFiles)
      {
        var shape := shapes[i];
        ghost var before := shapes;
        if ContainsIgnoreCase(filterGeom, shape.geometryName) || filterGeom == [] {
          if stripGeomName {
            shapes := shapes[i := shape.(featureClass := StripGeomName(shape.featureClass, shape.geometryName))];
          }
          featureClasses := AddUnique(featureClasses, shapes[i].featureClass);
        }
        assert shapes[..i] == before[..i];
        assert Selected(filterGeom, shapes[i]) == Selected(filterGeom, shape);
        FeatureClassesStep(shapes, i, filterGeom);
        i := i + 1;
      }
      assert shapes[..i] == shapes;
    }

    /**
     * The shapes of a tile cropped at its bounds: nothing for invalid bounds;
     * otherwise each shape that keeps a point, with the vertices inside the
     * bounds and those next to one (moved onto the border by `clip`).
     */
    method GetObjectsInBounds(bounds: Box, crs: CoordinateReferenceSystem, clip: (Vec3, Vec3) -> Vec3)
      returns (objects: seq<VectorData>)
      ensures !bounds.isValid ==> objects == []
      ensures bounds.isValid ==> objects == CroppedShapes(crs, shapes, bounds, clip)
    {
      objects := [];
      if !bounds.isValid {
        return;
      }
      var i := 0;
      while i < |shapes|
        invariant 0 <= i <= |shapes|
        invariant objects == CroppedShapes(crs, shapes[..i], bounds, clip)
      {
        assert shapes[..i + 1][..i] == shapes[..i];
        var shape := shapes[i];
        var conv := Converted(crs, shape.points);
        var kept := CropShape(shape.points, conv, bounds, clip);
        if |kept.1| > 0 {
          objects := objects + [CroppedObject(shape, kept)];
        }
        i := i + 1;
      }
      assert shapes[..i] == shapes;
    }

    /**
     * The uncropped POLYGON shapes of a tile that have a vertex in or on its
     * bounds, mapped to engine space, ordered by the lowest Y of their bounds;
     * nothing for invalid bounds.
     */
    method GetMappedObjects(bounds: Box, crs: CoordinateReferenceSystem) returns (objects: seq<VectorData>)
      ensures !bounds.isValid ==> objects == []
      ensures bounds.isValid ==> multiset(objects) == multiset(MappedShapes(shapes, bounds, crs))
      ensures SortedBy(objects, MinY)
      ensures forall k :: 0 <= k < |objects| ==> objects[k].geometryName == "POLYGON" && |objects[k].points| > 0
    {
      objects := [];
      if !bounds.isValid {
        return;
      }
      var i := 0;
      while i < |shapes|
        invariant 0 <= i <= |shapes|
        invariant objects == MappedShapes(shapes[..i], bounds, crs)
      {
        assert shapes[..i + 1][..i] == shapes[..i];
        var shape := shapes[i];
        if shape.geometryName == "POLYGON" && |shape.points| > 0 {
          var inside := false;
          var conv: seq<Vec3> := [];
          var j := 0;
          while j < |shape.points|
            invariant 0 <= j <= |shape.points|
            invariant conv == Converted(crs, shape.points)[..j]
            invariant inside <==> Touches(conv, bounds)
          {
            var p := crs.ConvertCRSPointToUnreal(shape.points[j]);
            inside := inside || bounds.IsInsideOrOnXY(p);
            conv := conv + [p];
            j := j + 1;
          }
          assert conv == Converted(crs, shape.points);
          if inside {
            objects := objects + [MappedObject(shape, conv)];
          }
        }
        i := i + 1;
      }
      assert shapes[..i] == shapes;
      MappedShapesArePolygons(shapes, bounds, crs);
      var unsorted := objects;
      objects := SortByKey(objects, MinY);
      forall k | 0 <= k < |objects|
        ensures objects[k].geometryName == "POLYGON" && |objects[k].points| > 0
      {
        assert objects[k] in multiset(unsorted);
      }
    }

    /** The tile's shapes, cropped or whole (tile bounds computed by the caller). */
    method GetShapes(bounds: Box, crs: CoordinateReferenceSystem, clip: (Vec3, Vec3) -> Vec3, crop: bool)
      returns (objects: seq<VectorData>)
      ensures !bounds.isValid ==> objects == []
      ensures crop && bounds.isValid ==> objects == CroppedShapes(crs, shapes, bounds, clip)
      ensures !crop && bounds.isValid ==> multiset(objects) == multiset(MappedShapes(shapes, bounds, crs))
      ensures !crop ==> SortedBy(objects, MinY)
      ensures forall k :: 0 <= k < |objects| ==> |objects[k].points| > 0
    {
      if crop {
        objects := GetObjectsInBounds(bounds, crs, clip);
        CroppedShapesExact(crs, shapes, bounds, clip);
      } else {
        objects := GetMappedObjects(bounds, crs);
      }
    }
  }

  /** The crop of one shape's vertex list, as the inner loop builds it. */
  method CropShape(orig: seq<Vec3>, conv: seq<Vec3>, bounds: Box, clip: (Vec3, Vec3) -> Vec3)
    returns (kept: (seq<Vec3>, seq<Vec3>))
    requires |orig| == |conv|
    ensures kept == CropPoints(orig, conv, bounds, clip, |conv|)
  {
    var pointsOriginal: seq<Vec3> := [];
    var points: seq<Vec3> := [];
    var j := 0;
    while j < |conv|
      invariant 0 <= j <= |conv|
      invariant (pointsOriginal, points) == CropPoints(orig, conv, bounds, clip, j)
    {
      var point := conv[j];
      var addPoint := bounds.IsInsideOrOnXY(point);
      if !addPoint && j < |conv| - 1 {
        if bounds.IsInsideOrOnXY(conv[j + 1]) {
          point := clip(point, conv[j + 1]);
          addPoint := true;
        } else {
          addPoint := false;
        }
      }
      if !addPoint && j > 0 {
        if bounds.IsInsideOrOnXY(conv[j - 1]) {
          point := clip(point, conv[j - 1]);
          addPoint := true;
        } else {
          addPoint := false;
        }
      }
      if addPoint {
        pointsOriginal := pointsOriginal + [orig[j]];
        points := points + [point];
      }
      j := j + 1;
    }
    kept := (pointsOriginal, points);
  }

  /** The crops of the shapes that keep a vertex, in input order. */
  function CroppedShapes(crs: CoordinateReferenceSystem, shapes: seq<VectorData>, bounds: Box,
                         clip: (Vec3, Vec3) -> Vec3): seq<VectorData>
    reads crs
  {
    if shapes == [] then []
    else
      var rest := CroppedShapes(crs, shapes[..|shapes| - 1], bounds, clip);
      var c := Crop(crs, shapes[|shapes| - 1], bounds, clip);
      if |c.points| > 0 then rest + [c] else rest
  }

  /**
   * Every cropped object has points, as many engine-space as original ones, and
   * is the crop of an input shape; every shape that keeps a vertex is cropped.
   */
  lemma {:induction false} CroppedShapesExact(crs: CoordinateReferenceSystem, shapes: seq<VectorData>, bounds: Box,
                                              clip: (Vec3, Vec3) -> Vec3)
    ensures forall k :: 0 <= k < |CroppedShapes(crs, shapes, bounds, clip)| ==>
      var c := CroppedShapes(crs, shapes, bounds, clip)[k];
      |c.points| > 0 && |c.points| == |c.pointsOriginal| && exists i :: 0 <= i < |shapes| && c == Crop(crs, shapes[i], bounds, clip)
    ensures forall i :: 0 <= i < |shapes| && AnyKept(Converted(crs, shapes[i].points), bounds) ==>
      Crop(crs, shapes[i], bounds, clip) in CroppedShapes(crs, shapes, bounds, clip)
  {
    if shapes != [] {
      var init := shapes[..|shapes| - 1];
      CroppedShapesExact(crs, init, bounds, clip);
      var r := CroppedShapes(crs, shapes, bounds, clip);
      var rest := CroppedShapes(crs, init, bounds, clip);
      forall k | 0 <= k < |r|
        ensures |r[k].points| > 0 && |r[k].points| == |r[k].pointsOriginal|
          && exists i :: 0 <= i < |shapes| && r[k] == Crop(crs, shapes[i], bounds, clip)
      {
        if k < |rest| {
          assert r[k] == rest[k];
          var i :| 0 <= i < |init| && rest[k] == Crop(crs, init[i], bounds, clip);
          assert shapes[i] == init[i];
        } else {
          assert r[k] == Crop(crs, shapes[|shapes| - 1], bounds, clip);
        }
      }
      forall i | 0 <= i < |shapes| && AnyKept(Converted(crs, shapes[i].points), bounds)
        ensures Crop(crs, shapes[i], bounds, clip) in r
      {
        if i < |init| {
          assert shapes[i] == init[i];
        }
      }
    }
  }

  /** The POLYGON shapes with a vertex touching the bounds, mapped, in input order. */
  function MappedShapes(shapes: seq<VectorData>, bounds: Box, crs: CoordinateReferenceSystem): seq<VectorData>
    reads crs
  {
    if shapes == [] then []
    else
      var rest := MappedShapes(shapes[..|shapes| - 1], bounds, crs);
      var s := shapes[|shapes| - 1];
      var conv := Converted(crs, s.points);
      if s.geometryName == "POLYGON" && |s.points| > 0 && Touches(conv, bounds)
      then rest + [MappedObject(s, conv)]
      else rest
  }

  /**
   * Every mapped shape is a POLYGON with points whose engine-space bounds contain
   * all its points, and one of them lies in or on the tile bounds.
   */
  lemma {:induction false} MappedShapesArePolygons(shapes: seq<VectorData>, bounds: Box, crs: CoordinateReferenceSystem)
    ensures forall k :: 0 <= k < |MappedShapes(shapes, bounds, crs)| ==>
      var m := MappedShapes(shapes, bounds, crs)[k];
      m.geometryName == "POLYGON" && |m.points| > 0 && Touches(m.points, bounds)
      && m.bounds == BoxOf(m.points) && |m.points| == |m.pointsOriginal|
  {
    if shapes != [] {
      MappedShapesArePolygons(shapes[..|shapes| - 1], bounds, crs);
    }
  }

  /** A POLYGON shape with a vertex inside the bounds is among the mapped shapes. */
  lemma {:induction false} TouchingPolygonIsMapped(shapes: seq<VectorData>, bounds: Box,
                                                   crs: CoordinateReferenceSystem, i: nat)
    requires i < |shapes| && shapes[i].geometryName == "POLYGON" && |shapes[i].points| > 0
    requires Touches(Converted(crs, shapes[i].points), bounds)
    ensures MappedObject(shapes[i], Converted(crs, shapes[i].points)) in MappedShapes(shapes, bounds, crs)
  {
    var init := shapes[..|shapes| - 1];
    if i < |shapes| - 1 {
      assert init[i] == shapes[i];
      TouchingPolygonIsMapped(init, bounds, crs, i);
    }
  }
}
