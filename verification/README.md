# Landscaping and TouchEditor: a verified model of the plugin logic

This project models the self-contained logic of three Unreal Engine editor
plugins in Dafny and proves properties about it.

- **Landscaping** imports geodata (heightmaps, satellite imagery and vector
  data) into a level. Modelled parts:
  - the geographic bounding box `FExtents` and its algebra;
  - the coordinate-reference-system helpers: the UTM zone rule, EPSG checks,
    the bbox string and the projected-to-engine conversion;
  - the raster tiling arithmetic and the landscape-resolution search;
  - height quantisation into the 16-bit height map;
  - bilinear resampling;
  - procedural-mesh vertex and triangle generation;
  - weightmap rasterisation of landcover polygons with the crossing-number
    test;
  - the vector-tile queries and the material-layer lists of the importer UI.
- **LandscapingMapbox** requests Mapbox tiles. Modelled parts:
  - the slippy-map tile numbering;
  - the Terrain-RGB height decoding;
  - the request range and the completion counting of a request.
- **TouchEditor** provides virtual touch controls and their designer.
  Modelled parts:
  - the `FVirtualControl` data model, with its visual-layer flags, unique
    names and the parent/child link graph that the designer edits;
  - the runtime widget's opacity state machine and its touch dispatch to
    controls and to listeners in priority order;
  - the hit test and screen clamping of one control;
  - the designer canvas conversions, zoom and orientation;
  - the shape recogniser (recording, simplification and scoring) and the
    shape designer's dot editing;
  - the device-profile registry;
  - the scale-factor settings;
  - the subsystem's listener list and struct conversions;
  - the converter from the engine's own touch interface;
  - the motion manager's tap detector.

## Modelling conventions

- Each core source file becomes one Dafny module in one `.dfy` file.
- Code that changes objects in place is modelled imperatively:
  - a class with those fields;
  - methods whose `modifies` clauses name the objects they change (in
    some classes field by field, as ``this`field``), and postconditions
    about the new state;
  - loops with invariants.
- Most methods whose loop computes a value are proved against a
  specification function, and lemmas about that function state what the
  source promises; state changes are stated field by field, with the
  invariants they keep.
- Value structs and pure helpers are datatypes and functions.
- Numbers:
  - floats are exact `real`s;
  - 32-bit wrap-around is written out where the source relies on it;
  - C++ integer `%` and `/` truncate towards zero and are modelled that way.
- Names and keys:
  - `FName` comparisons and `TMap<FString>` keys ignore case, so the model
    compares case-folded names;
  - `TArray::Remove` removes every equal element;
  - `TArray::Sort` is unstable. The model sorts by insertion, and its
    contract promises only that the result is ordered by the key and is a
    permutation of the input.
- External inputs are function parameters. These include trigonometry,
  square roots, GDAL answers, engine geometry, sensor readings and user
  answers in dialogs.

## Model

| member | source | states |
|---|---|---|
| LandscapingStructs.Extents.Reset | Plugins/Landscaping/Source/Landscaping/Private/LandscapingStructs.h:71-77 | Reset leaves the extents empty: all four sides zero |
| LandscapingStructs.Extents.GetArea | Plugins/Landscaping/Source/Landscaping/Private/LandscapingStructs.h:117-121 | the area in km² is never negative, and is zero for empty extents or for extents with zero width or height |
| LandscapingStructs.ResetIsEmpty | Plugins/Landscaping/Source/Landscaping/Private/LandscapingStructs.h:65-77 | after Reset, IsEmpty holds and the area is zero |
| LandscapingStructs.OverlappingSymmetric | Plugins/Landscaping/Source/Landscaping/Private/LandscapingStructs.h:84-110 | IsOverlapping and IsOverlappingStrict give the same answer whichever box is the receiver |
| LandscapingStructs.OverlappingMeansIntervalsMeet | Plugins/Landscaping/Source/Landscaping/Private/LandscapingStructs.h:84-110 | IsOverlapping holds exactly when the closed x and y intervals meet; IsOverlappingStrict exactly when the open intervals meet |
| LandscapingStructs.SharedEdgeCountsAsOverlap | Plugins/Landscaping/Source/Landscaping/Private/LandscapingStructs.h:84-110 | two boxes that only touch along an edge overlap, but not strictly, as the comments on the two predicates say |
| LandscapingStructs.StrictImpliesOverlapping | Plugins/Landscaping/Source/Landscaping/Private/LandscapingStructs.h:84-110 | a strict overlap is also an overlap |
| LandscapingStructs.EqualsReflexiveSymmetric | Plugins/Landscaping/Source/Landscaping/Private/LandscapingStructs.h:79-82 | Equals, and therefore operator==, is reflexive and symmetric |
| LandscapingStructs.EqualsNotTransitive | Plugins/Landscaping/Source/Landscaping/Private/LandscapingStructs.h:79-82 | because of the 0.1 tolerance, Equals is not transitive: three boxes 0.06 apart exhibit this |
| LandscapingStructs.InsideImpliesOverlapping | Plugins/Landscaping/Source/Landscaping/Private/LandscapingStructs.h:84-116 | a well-formed box that IsInside another also overlaps it, both loosely and strictly |
| LandscapingStructs.WellFormedOverlapsItself | Plugins/Landscaping/Source/Landscaping/Private/LandscapingStructs.h:84-97 | a box overlaps itself exactly when left <= right and bottom <= top |
| LandscapingStructs.Box.Add | Plugins/Landscaping/Source/Landscaping/Private/LandscapingUtils.h:26-34 | `Box += Point` makes the box valid, puts the point inside or on it, and only ever widens an already valid box |
| LandscapingStructs.BoxOf | Plugins/Landscaping/Source/Landscaping/Private/LandscapingUtils.h:26-34 | the box grown from the points is valid exactly when there is at least one point |
| LandscapingStructs.BoxOfContains | Plugins/Landscaping/Source/Landscaping/Private/LandscapingUtils.h:26-34 | every point lies inside or on the box grown from all the points |
| LandscapingStructs.NewLayerSettings | Plugins/Landscaping/Source/Landscaping/Private/LandscapingStructs.h:21-32 | a new material layer has the given name, no landuses, no weight blending, tiling 1, minimum weight 64 and no noise texture |
| RasterData.Default | Plugins/Landscaping/Source/Landscaping/Private/RasterData.h:11-36 | a default record has band count 1, zero resolutions and extents, no error, no band data, and a minimum altitude above its maximum (65535 and -65535) |
| RasterData.WithError | Plugins/Landscaping/Source/Landscaping/Private/RasterData.h:11-36 | a failure record carries the message, has no band data and one band |
| RasterData.OverlappingSymmetric | Plugins/Landscaping/Source/Landscaping/Private/RasterData.h:38-50 | RasterData::IsOverlapping is symmetric |
| RasterData.TouchingEdgesOverlap | Plugins/Landscaping/Source/Landscaping/Private/RasterData.h:37-50 | rasters that only share an edge count as overlapping |
| RasterData.WellFormedOverlapsItself | Plugins/Landscaping/Source/Landscaping/Private/RasterData.h:38-50 | a raster overlaps itself exactly when its extents are well-formed |
| RasterData.FirstFoldReplacesSentinels | Plugins/Landscaping/Source/Landscaping/Private/RasterData.h:13-14 | folding the first altitude in ±65535 into a fresh record replaces both the minimum and the maximum sentinel |
| LandscapingUtils.GetBounds | Plugins/Landscaping/Source/Landscaping/Private/LandscapingUtils.h:26-34 | the loop computes BoxOf(points): valid exactly when there are points, and containing each of them |
| LandscapingUtils.BoundsSmallest | Plugins/Landscaping/Source/Landscaping/Private/LandscapingUtils.h:26-34 | any box holding every point also holds both corners of GetBounds' box, so no smaller box holds them all |
| LandscapingUtils.Lerp | Plugins/Landscaping/Source/Landscaping/Private/LandscapingUtils.h:173 | the truncated linear interpolation of two unsigned samples lies between them and gives the first sample at t = 0 |
| LandscapingUtils.BiLerp | Plugins/Landscaping/Source/Landscaping/Private/LandscapingUtils.h:173 | BiLerp gives the first corner at (0, 0) and always lies between the smallest and the largest of the four corners |
| LandscapingUtils.OldPosInRange | Plugins/Landscaping/Source/Landscaping/Private/LandscapingUtils.h:157-168 | every new sample maps to an old position in 0 .. OldWidth - 1, so all four neighbour indices are in range |
| LandscapingUtils.OldPosLast | Plugins/Landscaping/Source/Landscaping/Private/LandscapingUtils.h:157-164 | the last new sample maps exactly onto the last old sample |
| LandscapingUtils.OldPosSame | Plugins/Landscaping/Source/Landscaping/Private/LandscapingUtils.h:157-164 | at equal sizes every new sample maps exactly onto the old one |
| LandscapingUtils.ResampleData | Plugins/Landscaping/Source/Landscaping/Private/LandscapingUtils.h:151-179 | the nested loop fills the result row by row with ResampleGrid, NewWidth × NewHeight values in all |
| LandscapingUtils.ResampleBounded | Plugins/Landscaping/Source/Landscaping/Private/LandscapingUtils.h:151-179 | every resampled value lies within the range of the input samples |
| LandscapingUtils.ResampleCorners | Plugins/Landscaping/Source/Landscaping/Private/LandscapingUtils.h:151-179 | the four corner samples are carried over unchanged |
| LandscapingUtils.ResampleIdentity | Plugins/Landscaping/Source/Landscaping/Private/LandscapingUtils.h:151-179 | resampling to the same size returns the data unchanged |
| LandscapingUtils.TileXToLonAgrees | Plugins/Landscaping/Source/Landscaping/Private/LandscapingUtils.h:197-201 | this TileXToLon numbers tile columns exactly as the Mapbox converter's does |
| LandscapingInfo.LandscapingInfo.GetScaleZ | Plugins/Landscaping/Source/Landscaping/Private/LandscapingInfo.cpp:22-26 | the Z scale maps half of the 16-bit height range (32768 levels of scale/128 cm) onto the altitude range in cm; it is non-negative exactly when max >= min |
| LandscapingInfo.LandscapingInfo.CalculateScale | Plugins/Landscaping/Source/Landscaping/Private/LandscapingInfo.cpp:9-20 | scale × landscape vertices equals import pixels × metres per pixel × 100 on X and Y; Z is GetScaleZ for a high-detail import and the user's ZScale otherwise; nothing else changes |
| LandscapingInfo.LandscapingInfo.CalculateLocation | Plugins/Landscaping/Source/Landscaping/Private/LandscapingInfo.cpp:28-38 | without a scale nothing changes; otherwise the location is the left/top corner relative to the origin in cm with Y negated, and Z is the middle altitude |
| LandscapingInfo.LandscapingInfo.ContainsSplineGeometry | Plugins/Landscaping/Source/Landscaping/Private/LandscapingInfo.cpp:45-55 | returns true exactly when some spline geometry's id equals the id, case-sensitively |
| LandscapingInfo.LandscapingInfo.ContainsLandcoverShape | Plugins/Landscaping/Source/Landscaping/Private/LandscapingInfo.cpp:57-67 | returns true exactly when some landcover shape's id equals the id, case-sensitively |
| RasterLandscapeData.Step | Plugins/Landscaping/Source/Landscaping/Private/RasterLandscapeData.cpp:36-65 | one record widens the altitude range to cover itself; a non-zero side of the extents only moves outwards |
| RasterLandscapeData.FoldWidensAltitude | Plugins/Landscaping/Source/Landscaping/Private/RasterLandscapeData.cpp:34-67 | after UpdateLandscapeData's fold, the range lies at or beyond the start and covers every record's minimum and maximum |
| RasterLandscapeData.FoldWidensExtents | Plugins/Landscaping/Source/Landscaping/Private/RasterLandscapeData.cpp:34-67 | once all four sides are non-zero and no record has a zero side, the fold only widens the extents, and they cover every record |
| RasterLandscapeData.FindResolution | Plugins/Landscaping/Source/Landscaping/Private/RasterLandscapeData.cpp:79-138 | the search over quads, sections and components always ends in resolutions of the engine's form quads·sections·components + 1; a side reported found is at least the import size, and both sides are found whenever the import sizes are at most 1023·2·255 + 1; the record's quads and sections are either untouched or come from the two tables |
| RasterLandscapeData.RasterPixelSize | Plugins/Landscaping/Source/Landscaping/Private/RasterLandscapeData.cpp:300-308 | Z is 0; a native size keeps X and the magnitude of Y; a custom size puts the same value on both axes; Y carries the native sign exactly when the sign is preserved |
| RasterLandscapeData.RasterLandscapeData.constructor | Plugins/Landscaping/Source/Landscaping/Private/RasterLandscapeData.cpp:10-13 | a new landscape is in the reset state |
| RasterLandscapeData.RasterLandscapeData.ResetRasterData | Plugins/Landscaping/Source/Landscaping/Private/RasterLandscapeData.cpp:15-26 | no records, zero pixel size and extents, one tile, and altitude sentinels with the minimum above the maximum |
| RasterLandscapeData.RasterLandscapeData.UpdateLandscapeData | Plugins/Landscaping/Source/Landscaping/Private/RasterLandscapeData.cpp:34-67 | the loop computes the fold of Step over the records; the records, tiles and index are unchanged, and the altitude range only widens |
| RasterLandscapeData.RasterLandscapeData.FoldRecord | Plugins/Landscaping/Source/Landscaping/Private/RasterLandscapeData.cpp:36-65 | one loop iteration applies Step to the summary |
| RasterLandscapeData.RasterLandscapeData.CalculateLandscapeResolution | Plugins/Landscaping/Source/Landscaping/Private/RasterLandscapeData.cpp:69-141 | false, with nothing changed, exactly when there are no records; otherwise every record gets engine-form landscape resolutions from FindResolution, each at least the record's import size when that is at most 1023·2·255 + 1, with no other record field changed; the extents, pixel size and altitudes are unchanged |
| RasterLandscapeData.RasterLandscapeData.GetRasterPixelSize | Plugins/Landscaping/Source/Landscaping/Private/RasterLandscapeData.cpp:300-308 | the landscape's pixel size under the import options, as characterised by RasterPixelSize |
| CoordinateReferenceSystem.EpsgValidRange | Plugins/Landscaping/Source/Landscaping/Private/CoordinateReferenceSystem.cpp:115-128 | an EPSG code passes the range check exactly when 1000 < code < 32768 |
| CoordinateReferenceSystem.UtmZoneInRange | Plugins/Landscaping/Source/Landscaping/Private/CoordinateReferenceSystem.cpp:414-427 | for longitudes in [-180, 180] the UTM zone lies in 1..60 |
| CoordinateReferenceSystem.UtmZoneIsBand | Plugins/Landscaping/Source/Landscaping/Private/CoordinateReferenceSystem.cpp:414-427 | zone z (below 180°) is the six-degree band [-180 + 6(z-1), -180 + 6z) |
| CoordinateReferenceSystem.UtmAuthorityID | Plugins/Landscaping/Source/Landscaping/Private/CoordinateReferenceSystem.cpp:414-427 | the UTM code is 32600 + zone north of the equator and 32700 + zone south of it |
| CoordinateReferenceSystem.UtmAuthorityIDIsValid | Plugins/Landscaping/Source/Landscaping/Private/CoordinateReferenceSystem.cpp:114-128 | every code GetUTMAuthorityID produces, for any input, passes IsEpsgIDValid's range check |
| CoordinateReferenceSystem.Split | Plugins/Landscaping/Source/Landscaping/Private/CoordinateReferenceSystem.cpp:197-198 | splitting at commas gives at least one piece and no piece holds a comma |
| CoordinateReferenceSystem.SplitJoin | Plugins/Landscaping/Source/Landscaping/Private/CoordinateReferenceSystem.cpp:197-198 | the pieces joined with commas give the input back |
| CoordinateReferenceSystem.SplitCullEmpty | Plugins/Landscaping/Source/Landscaping/Private/CoordinateReferenceSystem.cpp:197-198 | ParseIntoArray with culling yields only non-empty, comma-free pieces |
| CoordinateReferenceSystem.CullEmpty | Plugins/Landscaping/Source/Landscaping/Private/CoordinateReferenceSystem.cpp:197-198 | culling keeps exactly the non-empty pieces |
| CoordinateReferenceSystem.FracValue | Plugins/Landscaping/Source/Landscaping/Private/CoordinateReferenceSystem.cpp:206 | the digits after the decimal point read as a value in [0, 1] |
| CoordinateReferenceSystem.ParseBBox | Plugins/Landscaping/Source/Landscaping/Private/CoordinateReferenceSystem.cpp:195-209 | a bounding box is accepted exactly when it splits into four pieces that each match the number pattern |
| CoordinateReferenceSystem.SplitAppend | Plugins/Landscaping/Source/Landscaping/Private/CoordinateReferenceSystem.cpp:197-198 | a comma-free first piece is split off unchanged |
| CoordinateReferenceSystem.IntegerToken | Plugins/Landscaping/Source/Landscaping/Private/CoordinateReferenceSystem.cpp:202-206 | a plain integer token matches the number pattern and reads as its integer value |
| CoordinateReferenceSystem.TokenValueExamples | Plugins/Landscaping/Source/Landscaping/Private/CoordinateReferenceSystem.cpp:202-206 | decimal tokens are read exactly, sign and fraction included ("47.25", "-13") |
| CoordinateReferenceSystem.SplitExample | Plugins/Landscaping/Source/Landscaping/Private/CoordinateReferenceSystem.cpp:197-198 | "47.25,-13,48,0" splits into its four tokens |
| CoordinateReferenceSystem.ParseBBoxAccepts | Plugins/Landscaping/Source/Landscaping/Private/CoordinateReferenceSystem.cpp:195-209 | "47.25,-13,48,0" is accepted as bottom 47.25, left -13, top 48, right 0 |
| CoordinateReferenceSystem.ParseBBoxOfFour | Plugins/Landscaping/Source/Landscaping/Private/CoordinateReferenceSystem.cpp:195-209 | a string that splits into four number tokens parses to their values as bottom, left, top, right |
| CoordinateReferenceSystem.ParseBBoxRejectsThree | Plugins/Landscaping/Source/Landscaping/Private/CoordinateReferenceSystem.cpp:199 | three values are rejected |
| CoordinateReferenceSystem.ParseBBoxRejectsLeadingZero | Plugins/Landscaping/Source/Landscaping/Private/CoordinateReferenceSystem.cpp:202 | a number with a leading zero is rejected by the pattern |
| CoordinateReferenceSystem.GetValidExtents | Plugins/Landscaping/Source/Landscaping/Private/CoordinateReferenceSystem.cpp:243-250 | the result is empty exactly when either corner is (0, 0); otherwise it spans the two corners |
| CoordinateReferenceSystem.GetOGRErrStr | Plugins/Landscaping/Source/Landscaping/Private/CoordinateReferenceSystem.cpp:476-491 | codes 0..9 map to their OGR names, and every other code to "Unknown Error" |
| CoordinateReferenceSystem.CoordinateReferenceSystem.constructor | Plugins/Landscaping/Source/Landscaping/Private/CoordinateReferenceSystem.h:29-57 | the defaults: no authority id or WKT, zero origin and offset, empty cropped extents, scale factor 1, vector scale 100, precise scale on |
| CoordinateReferenceSystem.CoordinateReferenceSystem.SetOrigin | Plugins/Landscaping/Source/Landscaping/Private/CoordinateReferenceSystem.cpp:50-53 | sets the origin; nothing else changes |
| CoordinateReferenceSystem.CoordinateReferenceSystem.SetXYOffset | Plugins/Landscaping/Source/Landscaping/Private/CoordinateReferenceSystem.cpp:471-474 | sets the XY offset; nothing else changes |
| CoordinateReferenceSystem.CoordinateReferenceSystem.SetAuthorityID | Plugins/Landscaping/Source/Landscaping/Private/CoordinateReferenceSystem.cpp:66-113 | an invalid code with no WKT changes nothing; a valid code with no WKT is stored, and so is the WKT exported for it when the lookup succeeds; a non-empty WKT and the code are stored when the WKT is valid; no other field changes |
| CoordinateReferenceSystem.CoordinateReferenceSystem.SetCroppedExtentsFromString | Plugins/Landscaping/Source/Landscaping/Private/CoordinateReferenceSystem.cpp:195-209 | returns true exactly when ParseBBox accepts the string, and then stores its extents; on rejection nothing changes |
| CoordinateReferenceSystem.CoordinateReferenceSystem.ConvertCRSPointToUnreal | Plugins/Landscaping/Source/Landscaping/Private/CoordinateReferenceSystem.cpp:461-469 | the converted point has Z = 0 |
| CoordinateReferenceSystem.OriginMapsToOffset | Plugins/Landscaping/Source/Landscaping/Private/CoordinateReferenceSystem.cpp:461-469 | the origin converts to (XYOffset.X, XYOffset.Y, 0) |
| CoordinateReferenceSystem.ConvertKeepsXOrder | Plugins/Landscaping/Source/Landscaping/Private/CoordinateReferenceSystem.cpp:461-469 | with a non-zero scale, engine X grows strictly with CRS X (east) |
| CoordinateReferenceSystem.ConvertFlipsY | Plugins/Landscaping/Source/Landscaping/Private/CoordinateReferenceSystem.cpp:461-469 | with a non-zero scale, engine Y falls strictly as CRS Y (north) grows |
| WeightmapImporter.CrossingNumber | Plugins/Landscaping/Source/Landscaping/Private/WeightmapImporter.cpp:343-362 | the loop over the closed ring counts the edge crossings and returns their parity (even-odd rule) |
| WeightmapImporter.NoCrossingsOutsideYRange | Plugins/Landscaping/Source/Landscaping/Private/WeightmapImporter.cpp:349-360 | a point below every vertex is crossed by no edge |
| WeightmapImporter.Lifted | Plugins/Landscaping/Source/Landscaping/Private/WeightmapImporter.cpp:294-298 | the bounds loop adds one point per vertex, Z alternating 1 and -1 |
| WeightmapImporter.ComputeShapeBounds | Plugins/Landscaping/Source/Landscaping/Private/WeightmapImporter.cpp:291-300 | the bounds loop computes ShapeBounds of the lifted points |
| WeightmapImporter.ShapeBoundsFlat | Plugins/Landscaping/Source/Landscaping/Private/WeightmapImporter.cpp:291-300 | with two or more vertices the bounds span Z in [-1, 1], so only X and Y decide containment of a pixel at Z = 0 |
| WeightmapImporter.SinglePointShapeBoundsExcludeFlat | Plugins/Landscaping/Source/Landscaping/Private/WeightmapImporter.cpp:291-300 | a one-vertex shape's bounds have Z fixed at 1, so no pixel at Z = 0 lies inside |
| WeightmapImporter.IsInShape | Plugins/Landscaping/Source/Landscaping/Private/WeightmapImporter.cpp:333-340 | a point is in the shape exactly when it lies in or on the shape's bounds and the crossing parity is odd |
| WeightmapImporter.NotInShapeOutsideYRange | Plugins/Landscaping/Source/Landscaping/Private/WeightmapImporter.cpp:333-362 | a point below every vertex is never in the shape |
| WeightmapImporter.ShapeCopies | Plugins/Landscaping/Source/Landscaping/Private/WeightmapImporter.cpp:49-57 | one copy of the shape is added for each listed class equal to its feature class; there is a copy exactly when its class is listed |
| WeightmapImporter.MatchingShapesExact | Plugins/Landscaping/Source/Landscaping/Private/WeightmapImporter.cpp:44-60 | exactly the shapes whose class is listed survive the filter |
| WeightmapImporter.GetLandcoverShapes | Plugins/Landscaping/Source/Landscaping/Private/WeightmapImporter.cpp:44-60 | the double loop keeps exactly the shapes whose feature class is listed, compared case-sensitively |
| WeightmapImporter.NoiseAsWritten | Plugins/Landscaping/Source/Landscaping/Private/WeightmapImporter.cpp:250-257 | the noise loop as written (default-layer index used as a pixel index) keeps the layer's length |
| WeightmapImporter.NoiseAsWrittenLosesWeight | Plugins/Landscaping/Source/Landscaping/Private/WeightmapImporter.cpp:255 | as written, a claimed pixel loses its noisy weight: weights [255, 255] with noise [100, 200] end as [55, 200] |
| WeightmapImporter.ApplyNoise | Plugins/Landscaping/Source/Landscaping/Private/WeightmapImporter.cpp:240-257 | corrected noise step: each claimed pixel gets max(MinWeight, noise) and the default layer's same pixel the complement, so the two sum to 255; unclaimed pixels are unchanged |
| WeightmapImporter.ActiveLanduseTypes | Plugins/Landscaping/Source/Landscaping/Private/WeightmapImporter.cpp:217-224 | the landcover types are exactly those of the active landuse entries |
| WeightmapImporter.DefaultIndex | Plugins/Landscaping/Source/Landscaping/Private/WeightmapImporter.cpp:205-265 | the default layer index is that of the last layer named like the default layer, else 0 |
| WeightmapImporter.WeightmapImporter.constructor | Plugins/Landscaping/Source/Landscaping/Private/WeightmapImporter.cpp:10-15 | a new importer has no claimed pixels |
| WeightmapImporter.WeightmapImporter.CreateWeightData | Plugins/Landscaping/Source/Landscaping/Private/WeightmapImporter.cpp:282-330 | every weight is 0 or 255; a pixel gets 255 exactly when it was unclaimed and lies in some shape, and it is then claimed; other claims are unchanged |
| WeightmapImporter.WeightmapImporter.FillRow | Plugins/Landscaping/Source/Landscaping/Private/WeightmapImporter.cpp:304-328 | one row of the raster loop decides exactly the pixels of that row and leaves the others untouched |
| WeightmapImporter.WeightmapImporter.ClaimPixel | Plugins/Landscaping/Source/Landscaping/Private/WeightmapImporter.cpp:312-325 | a free pixel inside some shape gets weight 255 and is claimed; nothing else changes |
| WeightmapImporter.WeightmapImporter.LayerData | Plugins/Landscaping/Source/Landscaping/Private/WeightmapImporter.cpp:209-258 | a layer's weights are zero unless it is a weight-blended non-default layer with matching shapes; claims only grow, and every weighted pixel was newly claimed by this layer (with the corrected noise complement, ApplyNoise, of the Findings) |
| WeightmapImporter.WeightmapImporter.GetLayerInfos | Plugins/Landscaping/Source/Landscaping/Private/WeightmapImporter.cpp:189-279 | no level gives no layers; otherwise one layer per setting, no pixel is claimed by two shape layers, and every pixel no layer claimed gets 255 in the default layer |
| WeightmapImporter.WeightmapImporter.BuildLayers | Plugins/Landscaping/Source/Landscaping/Private/WeightmapImporter.cpp:205-266 | the layer loop yields one layer per setting in order, disjoint claims, and DefaultIndex as the default layer |
| WeightmapImporter.WeightmapImporter.FillUnused | Plugins/Landscaping/Source/Landscaping/Private/WeightmapImporter.cpp:268-277 | every unclaimed pixel gets weight 255 and claimed pixels keep theirs |
| WeightmapImporter.AppendKeepsClaims | Plugins/Landscaping/Source/Landscaping/Private/WeightmapImporter.cpp:259-261 | appending a layer that weights only pixels it newly claimed keeps the claims disjoint and recorded |
| WeightmapImporter.UpdateDefaultKeepsClaims | Plugins/Landscaping/Source/Landscaping/Private/WeightmapImporter.cpp:250-256 | rewriting the default layer (never a shape layer) keeps every shape layer's claims |
| WeightmapImporter.FillKeepsDisjoint | Plugins/Landscaping/Source/Landscaping/Private/WeightmapImporter.cpp:268-277 | weighting only unclaimed pixels of one layer keeps the shape layers disjoint |
| VectorTileFactory.AddUnique | Plugins/Landscaping/Source/Landscaping/Private/VectorTileFactory.cpp:100 | AddUnique leaves the string in the list, adding it only when no entry equals it ignoring case |
| VectorTileFactory.StripGeomName | Plugins/Landscaping/Source/Landscaping/Private/VectorTileFactory.cpp:95-99 | RemoveFromEnd either keeps the class or removes exactly the suffix " (<geometry name>)" |
| VectorTileFactory.FeatureClassesStep | Plugins/Landscaping/Source/Landscaping/Private/VectorTileFactory.cpp:91-102 | one more loop iteration extends the feature classes found so far by the next selected shape's class |
| VectorTileFactory.FeatureClassesExact | Plugins/Landscaping/Source/Landscaping/Private/VectorTileFactory.cpp:88-104 | the list has no duplicates ignoring case, each entry is a selected shape's class, and every selected shape's class is listed |
| VectorTileFactory.Converted | Plugins/Landscaping/Source/Landscaping/Private/VectorTileFactory.cpp:240-247 | every point of a shape is converted with ConvertCRSPointToUnreal, in order |
| VectorTileFactory.CropPoints | Plugins/Landscaping/Source/Landscaping/Private/VectorTileFactory.cpp:136-204 | the crop keeps as many original as engine-space points, and keeps some point exactly when some vertex is kept |
| VectorTileFactory.VectorTileFactory.constructor | Plugins/Landscaping/Source/Landscaping/Private/VectorTileFactory.cpp:8-12 | a new factory has no shapes and no vector files |
| VectorTileFactory.VectorTileFactory.GetAvailableFeatureClasses | Plugins/Landscaping/Source/Landscaping/Private/VectorTileFactory.cpp:88-104 | selected shapes lose their geometry suffix in place when asked, no other shape changes, and the result is FeatureClasses of the updated shapes |
| VectorTileFactory.VectorTileFactory.GetObjectsInBounds | Plugins/Landscaping/Source/Landscaping/Private/VectorTileFactory.cpp:109-216 | invalid bounds give nothing; otherwise the result is the crop of every shape that keeps a vertex |
| VectorTileFactory.VectorTileFactory.GetMappedObjects | Plugins/Landscaping/Source/Landscaping/Private/VectorTileFactory.cpp:221-265 | invalid bounds give nothing; otherwise the result is a permutation of the POLYGON shapes with a vertex in or on the bounds, mapped to engine space and ordered by the lowest Y of their bounds |
| VectorTileFactory.VectorTileFactory.GetShapes | Plugins/Landscaping/Source/Landscaping/Private/VectorTileFactory.cpp:308-316 | invalid bounds give nothing; cropped, exactly the cropped shapes in order; uncropped, the mapped shapes touching the bounds, each as often, ordered by lowest Y; every shape returned has points |
| VectorTileFactory.CropShape | Plugins/Landscaping/Source/Landscaping/Private/VectorTileFactory.cpp:136-204 | the inner loop over one shape's vertices builds CropPoints |
| VectorTileFactory.CroppedShapesExact | Plugins/Landscaping/Source/Landscaping/Private/VectorTileFactory.cpp:109-216 | every cropped object has points, as many engine-space as original ones, and comes from an input shape; every shape that keeps a vertex is among them |
| VectorTileFactory.MappedShapesArePolygons | Plugins/Landscaping/Source/Landscaping/Private/VectorTileFactory.cpp:221-265 | every mapped shape is a POLYGON with points, its bounds contain all its points, and one of them lies in or on the tile bounds |
| VectorTileFactory.TouchingPolygonIsMapped | Plugins/Landscaping/Source/Landscaping/Private/VectorTileFactory.cpp:221-265 | every POLYGON shape with a vertex in or on the bounds is among the mapped shapes |
| RasterTileFactory.KeyOrdersConfigurations | Plugins/Landscaping/Source/Landscaping/Private/RasterTileFactory.cpp:422-428 | the integer sort key orders configurations exactly as the comparator does: by SizeX, then by component count |
| RasterTileFactory.GetSquareConfigurations | Plugins/Landscaping/Source/Landscaping/Private/RasterTileFactory.cpp:401-430 | exactly the 384 valid configurations (32 component counts × 2 section counts × quad counts 7…255, SizeX = components × sections × quads + 1), each once, sorted by SizeX and then by component count |
| RasterTileFactory.GeneratedComplete | Plugins/Landscaping/Source/Landscaping/Private/RasterTileFactory.cpp:404-415 | every valid configuration is produced by one step of the three nested loops |
| RasterTileFactory.GeneratedDistinct | Plugins/Landscaping/Source/Landscaping/Private/RasterTileFactory.cpp:404-415 | the nested loops never produce the same configuration twice |
| RasterTileFactory.GeneratedValid | Plugins/Landscaping/Source/Landscaping/Private/RasterTileFactory.cpp:404-415 | every configuration the nested loops produce is a valid one |
| RasterTileFactory.FirstAtLeast | Plugins/Landscaping/Source/Landscaping/Private/RasterTileFactory.cpp:321-329 | the index of the first configuration with SizeX at least the side, or the list length when there is none |
| RasterTileFactory.SquareTileSide | Plugins/Landscaping/Source/Landscaping/Private/RasterTileFactory.cpp:318-331 | the square side is one less than the first configuration that holds the tile, or the tile side itself when none does |
| RasterTileFactory.FirstIsFirst | Plugins/Landscaping/Source/Landscaping/Private/RasterTileFactory.cpp:321-329 | FirstAtLeast is the only index with nothing large enough before it |
| RasterTileFactory.SquareSideIsSmallestFit | Plugins/Landscaping/Source/Landscaping/Private/RasterTileFactory.cpp:318-331 | with the configurations sorted, a changed square side is one less than the smallest configuration size that holds the tile |
| RasterTileFactory.FirstFitIsSquareSide | Plugins/Landscaping/Source/Landscaping/Private/RasterTileFactory.cpp:318-331 | on the configurations GetSquareConfigurations returns, the first one holding the tile gives the square side: one less than the smallest valid configuration size that holds it, or the tile side when none does |
| RasterTileFactory.MinFitFromSpec | Plugins/Landscaping/Source/Landscaping/Private/RasterTileFactory.cpp:318-331 | the smallest fitting configuration size is absent exactly when no valid configuration holds the tile, and otherwise holds it and is no larger than any that does |
| RasterTileFactory.CeilToInt | Plugins/Landscaping/Source/Landscaping/Private/RasterTileFactory.cpp:315 | FMath::CeilToInt returns the least integer at or above its argument |
| RasterTileFactory.TilesAlong | Plugins/Landscaping/Source/Landscaping/Private/RasterTileFactory.cpp:302-313 | the tile-count loop ends with tiles no wider than the desired size, at the first count from the start that achieves it |
| RasterTileFactory.CropExtents | Plugins/Landscaping/Source/Landscaping/Private/RasterTileFactory.cpp:291-297 | the landscape extents are clamped to the cropped extents: each side is the tighter of the two |
| RasterTileFactory.Wrap32 | Plugins/Landscaping/Source/Landscaping/Private/RasterTileFactory.cpp:354-355 | an int32 product wraps as two's complement: values in range are kept, all results are in range |
| RasterTileFactory.TileSizeCheckNeverFires | Plugins/Landscaping/Source/Landscaping/Private/RasterTileFactory.cpp:354-355 | as written, the size check can never fire: an int32 product is never above INT_MAX |
| RasterTileFactory.TileSizeCheckMissesOverflow | Plugins/Landscaping/Source/Landscaping/Private/RasterTileFactory.cpp:354-355 | a 50000 × 50000 tile overflows the int32 pixel count, and the check as written lets it through |
| RasterTileFactory.FirstImportTiles | Plugins/Landscaping/Source/Landscaping/Private/RasterTileFactory.cpp:300-337 | on a first import, the fewest tiles from the current counts no wider than the desired size; square tiles get SquareSide of the X side on both axes, others one side per axis from the pixel size |
| RasterTileFactory.FollowUpTiles | Plugins/Landscaping/Source/Landscaping/Private/RasterTileFactory.cpp:338-352 | on a follow-up import, the first tile's size and pixel size when resampling, otherwise the size covering the first tile's ground at this pixel size with the pixel size kept; then as many tiles as it takes to span the landscape |
| RasterTileFactory.SizeTiles | Plugins/Landscaping/Source/Landscaping/Private/RasterTileFactory.cpp:288-361 | the tile split keeps the records and altitudes, clamps the extents to the crop, sets counts, tile size and pixel size as FirstImportTiles (first import) or FollowUpTiles (follow-up) state, and reports the size error exactly when the corrected size check fails |
| RasterTileFactory.FollowUpTilesCover | Plugins/Landscaping/Source/Landscaping/Private/RasterTileFactory.cpp:350-351 | on a follow-up import the tiles together span the landscape's width, and one tile fewer would not |
| RasterTileFactory.TruncToInt | Plugins/Landscaping/Source/Landscaping/Private/RasterTileFactory.cpp:556 | the double-to-int conversion truncates toward zero |
| RasterTileFactory.ImportHeightRange | Plugins/Landscaping/Source/Landscaping/Private/RasterTileFactory.cpp:550-573 | 16383..49152 for high detail; otherwise the levels the Z scale needs, centred in 0..65535, falling back to high detail above 60000 levels |
| RasterTileFactory.CustomRangeMatchesZScale | Plugins/Landscaping/Source/Landscaping/Private/RasterTileFactory.cpp:553-573 | the custom height range is within one level of the levels the Z scale needs |
| RasterTileFactory.QuantiseInRange | Plugins/Landscaping/Source/Landscaping/Private/RasterTileFactory.cpp:581-583 | altitudes in range quantise into the height range, the lowest onto NewMin and the highest onto NewMax |
| RasterTileFactory.HeightInRange | Plugins/Landscaping/Source/Landscaping/Private/RasterTileFactory.cpp:581-583 | the uint16 height of an altitude in range stays within the height range |
| RasterTileFactory.HeightGrid | Plugins/Landscaping/Source/Landscaping/Private/RasterTileFactory.cpp:574-597 | the heights of the tile, row by row: cell (x, y) is the height of altitude HeightInfo[y][x] |
| RasterTileFactory.HeightsInRange | Plugins/Landscaping/Source/Landscaping/Private/RasterTileFactory.cpp:574-597 | every cell of the height grid lies in the height range |
| RasterTileFactory.Import | Plugins/Landscaping/Source/Landscaping/Private/RasterTileFactory.cpp:506-607 | ResX × ResY samples in row-major order, all within the height range; the tile's scale is recomputed when a custom Z scale falls back to high detail |
| RasterTileFactory.SampleRows | Plugins/Landscaping/Source/Landscaping/Private/RasterTileFactory.cpp:574-597 | the row loops lay out the height grid row after row, all samples in range |
| RasterTileFactory.SampleRow | Plugins/Landscaping/Source/Landscaping/Private/RasterTileFactory.cpp:585-596 | one row of the loops holds the heights of that row's altitudes |
| RasterTileFactory.SortCoarsestFirst | Plugins/Landscaping/Source/Landscaping/Private/RasterTileFactory.cpp:702 | the records are permuted into coarsest-to-finest order of the absolute MeterPerPixel.X |
| RasterTileFactory.DecalTilesAlong | Plugins/Landscaping/Source/Landscaping/Private/RasterTileFactory.cpp:954-964 | each decal tile is at most 8192 pixels, with the fewest tiles that achieve it |
| RasterTileFactory.Window | Plugins/Landscaping/Source/Landscaping/Private/RasterTileFactory.cpp:973-980 | a tile's data is its TileWidth × TileHeight window, row by row |
| RasterTileFactory.WindowPixel | Plugins/Landscaping/Source/Landscaping/Private/RasterTileFactory.cpp:979 | pixel (x, y) of a window is pixel (x + xOffset, y + yOffset) of the band |
| RasterTileFactory.TileGrid | Plugins/Landscaping/Source/Landscaping/Private/RasterTileFactory.cpp:968-990 | all tiles of the decal tiling, row by row |
| RasterTileFactory.TileNumbering | Plugins/Landscaping/Source/Landscaping/Private/RasterTileFactory.cpp:968-990 | tile yTile × NumberTilesX + xTile of the list is tile (xTile, yTile) |
| RasterTileFactory.GetColorData | Plugins/Landscaping/Source/Landscaping/Private/RasterTileFactory.cpp:949-990 | one tile without decal import; with it, each tile at most 8192 pixels wide and high with the fewest tiles; the tiles are the image's windows in row order |
| RasterTileFactory.CutTileRow | Plugins/Landscaping/Source/Landscaping/Private/RasterTileFactory.cpp:970-989 | the inner loop cuts one row of the tiling, left to right |
| RasterTileFactory.CutWindow | Plugins/Landscaping/Source/Landscaping/Private/RasterTileFactory.cpp:975-981 | the pixel copy loops fill exactly the tile's window |
| LandscapingInfos.WithoutEpsgPrefix | Plugins/Landscaping/Source/Landscaping/Private/ALandscapingInfos.cpp:177-178 | RemoveFromStart("EPSG:") drops the prefix exactly when it is present |
| LandscapingInfos.DigitRun | Plugins/Landscaping/Source/Landscaping/Private/ALandscapingInfos.cpp:179 | Atoi reads the longest run of leading digits, and no more |
| LandscapingInfos.AtoiOfDigits | Plugins/Landscaping/Source/Landscaping/Private/ALandscapingInfos.cpp:179 | a plain digit string reads as its decimal value |
| LandscapingInfos.ShiftPoints | Plugins/Landscaping/Source/Landscaping/Private/ALandscapingInfos.cpp:255-258 | the inner loop moves every point by the delta |
| LandscapingInfos.ShiftShapes | Plugins/Landscaping/Source/Landscaping/Private/ALandscapingInfos.cpp:253-266 | the middle loops move every shape's points by the delta and keep everything else |
| LandscapingInfos.ShiftInverse | Plugins/Landscaping/Source/Landscaping/Private/ALandscapingInfos.cpp:249-268 | moving by the delta and then by its negation gives the tiles back |
| LandscapingInfos.ShapesInverse | Plugins/Landscaping/Source/Landscaping/Private/ALandscapingInfos.cpp:253-266 | moving shapes by the delta and back gives them back |
| LandscapingInfos.ShiftKeepsCounts | Plugins/Landscaping/Source/Landscaping/Private/ALandscapingInfos.cpp:249-268 | the move keeps the number of tiles, of shapes per tile and of points per shape; only points move |
| LandscapingInfos.TotalAreaNonNegative | Plugins/Landscaping/Source/Landscaping/Private/ALandscapingInfos.cpp:406-414 | the summed area is never negative |
| LandscapingInfos.TotalAreaOfEmptyTiles | Plugins/Landscaping/Source/Landscaping/Private/ALandscapingInfos.cpp:406-414 | the summed area is 0 when every tile's extents are empty |
| LandscapingInfos.LandscapingInfos.constructor | Plugins/Landscaping/Source/Landscaping/Public/ALandscapingInfos.h:28-46 | a new actor has no tiles, no projection, empty extents, zero offset, vector scale 100, scale factor 1, precise scale on, and no CRS object yet |
| LandscapingInfos.LandscapingInfos.GetCRS | Plugins/Landscaping/Source/Landscaping/Private/ALandscapingInfos.cpp:162-192 | an existing CRS is returned and no tile changes; otherwise a new one is made with the actor's offset and scales, the origin and cropped extents from the first tile, and the code and WKT from the root projection, and every tile without WGS84 extents gets its extents converted by it, all other tiles as they were |
| LandscapingInfos.LandscapingInfos.FillGeogExtents | Plugins/Landscaping/Source/Landscaping/Private/ALandscapingInfos.cpp:183-189 | a tile with empty WGS84 extents gets the conversion of its extents; every other tile and field is unchanged |
| LandscapingInfos.LandscapingInfos.SetOrigin | Plugins/Landscaping/Source/Landscaping/Private/ALandscapingInfos.cpp:194-202 | the CRS origin is written only while it is still zero; a CRS made on the way fills in the tiles' WGS84 extents as GetCRS does |
| LandscapingInfos.LandscapingInfos.ResetCRS | Plugins/Landscaping/Source/Landscaping/Private/ALandscapingInfos.cpp:212-228 | with no tiles, forgets the projection, WKT, both extents and the CRS object; with tiles nothing changes |
| LandscapingInfos.LandscapingInfos.SetCRS | Plugins/Landscaping/Source/Landscaping/Private/ALandscapingInfos.cpp:230-247 | a projection without "EPSG:" returns -1 and changes nothing; one with it drops the tiles, resets the CRS, stores the projection and origin, and returns the new CRS's code: the projection's code when it is valid and the origin is set, otherwise the custom-CRS settings projection when that is valid, otherwise the projection's code when valid, otherwise 0 |
| LandscapingInfos.LandscapingInfos.UpdateLocationToGeometries | Plugins/Landscaping/Source/Landscaping/Private/ALandscapingInfos.cpp:249-268 | every spline and landcover point of every tile moves by the delta; nothing else changes |
| LandscapingInfos.LandscapingInfos.SetOffsetXYFromLeftTopMostTile | Plugins/Landscaping/Source/Landscaping/Private/ALandscapingInfos.cpp:365-386 | with tiles, XYOffset becomes the smallest tile X and the smallest tile Y location; without tiles nothing changes |
| LandscapingInfos.LandscapingInfos.GetArea | Plugins/Landscaping/Source/Landscaping/Private/ALandscapingInfos.cpp:406-414 | the loop sums the tiles' extents areas, and the sum is never negative |
| CoordinateReferenceSystem.CoordinateReferenceSystem.FetchAuthorityIDFromSettings | Plugins/Landscaping/Source/Landscaping/Private/CoordinateReferenceSystem.cpp:19-31 | a valid code with the origin set, no custom-CRS settings projection or an invalid one leave code and WKT as they were; otherwise the settings projection becomes the code and its exported WKT (when the lookup succeeds) the WKT; no other field changes |
| CoordinateReferenceSystem.CoordinateReferenceSystem.GetAuthorityID | Plugins/Landscaping/Source/Landscaping/Private/CoordinateReferenceSystem.cpp:33-37 | the code after fetching from the settings: kept when valid with the origin set or when the settings give no valid projection, otherwise the settings projection, with the WKT following it |
| RasterImporter.CleanFilename | Plugins/Landscaping/Source/Landscaping/Private/RasterImporter.cpp:76 | GetCleanFilename returns the part of the path after its last slash or backslash |
| RasterImporter.NamesPassIff | Plugins/Landscaping/Source/Landscaping/Private/RasterImporter.cpp:72-86 | the name check passes exactly when every .hgt file has a valid SRTM name; other files are not looked at |
| RasterImporter.LoadFiles | Plugins/Landscaping/Source/Landscaping/Private/RasterImporter.cpp:66-102 | no files gives an empty message; an invalid .hgt name gives the naming error without reading; otherwise read errors reset the CRS and give the generic error |
| RasterImporter.OtherFilesSkipCheck | Plugins/Landscaping/Source/Landscaping/Private/RasterImporter.cpp:72-86 | a list without .hgt files is never rejected by name |
| RasterImporter.HgtNameExamples | Plugins/Landscaping/Source/Landscaping/Private/RasterImporter.cpp:76-80 | "N47E011.hgt" and "S12W077.hgt" pass; a short or wrongly lettered name fails |
| RasterImporter.CleanFilenameOfPath | Plugins/Landscaping/Source/Landscaping/Private/RasterImporter.cpp:76 | the clean name of "dir/name" is name, whatever the directory |
| RasterImporterUI.Types | Plugins/Landscaping/Source/Landscaping/Private/UI/FRasterImporterUI.cpp:1329-1331 | the landuse types of a list, entry for entry |
| RasterImporterUI.AppendMissing | Plugins/Landscaping/Source/Landscaping/Private/UI/FRasterImporterUI.cpp:1322-1343 | appending missing types never changes the entries already listed |
| RasterImporterUI.AppendMissingExtends | Plugins/Landscaping/Source/Landscaping/Private/UI/FRasterImporterUI.cpp:1337-1342 | the old list stays a prefix and every appended entry is a fresh entry for a listed type that was missing |
| RasterImporterUI.AppendMissingCovers | Plugins/Landscaping/Source/Landscaping/Private/UI/FRasterImporterUI.cpp:1322-1343 | afterwards every listed type (bar a skipped empty one) is present |
| RasterImporterUI.AppendMissingNoDuplicates | Plugins/Landscaping/Source/Landscaping/Private/UI/FRasterImporterUI.cpp:1322-1343 | a list without repeated types keeps that property |
| RasterImporterUI.DummyRule | Plugins/Landscaping/Source/Landscaping/Private/UI/FRasterImporterUI.cpp:1322-1343 | the dummy list gains each non-empty landcover type exactly when it lacks it, as an inactive interactable entry |
| RasterImporterUI.LayerRule | Plugins/Landscaping/Source/Landscaping/Private/UI/FRasterImporterUI.cpp:1344-1379 | a layer gains an entry per missing type, active iff the layer name equals the type ignoring case; it is weight-blended iff it is the default layer or gained an active entry |
| RasterImporterUI.ActiveTypesIff | Plugins/Landscaping/Source/Landscaping/Private/UI/FRasterImporterUI.cpp:1388-1398 | a key is in the active map iff some layer holds an active entry of that type, ignoring case |
| RasterImporterUI.SelectedKeepsActive | Plugins/Landscaping/Source/Landscaping/Private/UI/FRasterImporterUI.cpp:1399-1417 | the second pass never changes which types are active |
| RasterImporterUI.SelectionRule | Plugins/Landscaping/Source/Landscaping/Private/UI/FRasterImporterUI.cpp:1399-1417 | an entry is interactable iff it is active or its type (ignoring case) is active nowhere; a layer with an active entry is weight-blended |
| RasterImporterUI.SelectAllIdempotent | Plugins/Landscaping/Source/Landscaping/Private/UI/FRasterImporterUI.cpp:1386-1419 | a second selection update changes nothing |
| RasterImporterUI.RasterImporterUI.constructor | Plugins/Landscaping/Source/Landscaping/Private/UI/FRasterImporterUI.h:52-65 | empty layer, dummy and material lists, no default layer, default import options with at most one satellite choice |
| RasterImporterUI.RasterImporterUI.UpdateLayerList | Plugins/Landscaping/Source/Landscaping/Private/UI/FRasterImporterUI.cpp:1294-1318 | one fresh layer per material layer name in order; the first name becomes the default and goes to the file manager; an empty material keeps the old default |
| RasterImporterUI.RasterImporterUI.UpdateLandcoverTypes | Plugins/Landscaping/Source/Landscaping/Private/UI/FRasterImporterUI.cpp:1320-1384 | the dummy list and every layer are updated as DummyRule and LayerRule describe; nothing else changes |
| RasterImporterUI.RasterImporterUI.UpdateOnLanduseSelectionChanged | Plugins/Landscaping/Source/Landscaping/Private/UI/FRasterImporterUI.cpp:1386-1419 | the layers become SelectAll of the old layers (see SelectionRule) and are handed to the infos actor |
| RasterImporterUI.RasterImporterUI.SetImportAsDecal | Plugins/Landscaping/Source/Landscaping/Private/UI/FRasterImporterUI.cpp:433-440 | sets the decal choice; checking it clears the vertex-colour choice, so the two never both hold |
| RasterImporterUI.RasterImporterUI.SetImportAsVertexColor | Plugins/Landscaping/Source/Landscaping/Private/UI/FRasterImporterUI.cpp:461-468 | sets the vertex-colour choice; checking it clears the decal choice |
| RasterImporterUI.HasType | Plugins/Landscaping/Source/Landscaping/Private/UI/FRasterImporterUI.cpp:1357-1365 | the search loop finds a type iff the list holds it (case-sensitive) |
| RasterImporterUI.AppendAll | Plugins/Landscaping/Source/Landscaping/Private/UI/FRasterImporterUI.cpp:1322-1343 | the append loop computes AppendMissing |
| RasterImporterUI.UpdateLayer | Plugins/Landscaping/Source/Landscaping/Private/UI/FRasterImporterUI.cpp:1346-1377 | the layer loop body computes the layer LayerRule describes |
| RasterImporterUI.CollectActive | Plugins/Landscaping/Source/Landscaping/Private/UI/FRasterImporterUI.cpp:1388-1398 | the first loop collects exactly the active types |
| RasterImporterUI.SelectLayer | Plugins/Landscaping/Source/Landscaping/Private/UI/FRasterImporterUI.cpp:1401-1416 | the inner loop computes the selected layer |
| ProcMeshLandscape.HeightRow | Plugins/Landscaping/Source/Landscaping/Private/ALandscapingProcMeshLandscape.cpp:120 | grid line i holds XSize samples |
| ProcMeshLandscape.HeightRowAt | Plugins/Landscaping/Source/Landscaping/Private/ALandscapingProcMeshLandscape.cpp:120 | sample j of grid line i is height sample i * XSize + j |
| ProcMeshLandscape.VertexRow | Plugins/Landscaping/Source/Landscaping/Private/ALandscapingProcMeshLandscape.cpp:118-122 | one vertex per sample of the line |
| ProcMeshLandscape.VertexGrid | Plugins/Landscaping/Source/Landscaping/Private/ALandscapingProcMeshLandscape.cpp:114-124 | YSize lines of XSize vertices each |
| ProcMeshLandscape.VertexAt | Plugins/Landscaping/Source/Landscaping/Private/ALandscapingProcMeshLandscape.cpp:114-124 | XSize * YSize vertices; vertex i * XSize + j sits at (j * Scale.X, i * Scale.Y, 100 * height) |
| ProcMeshLandscape.UVRow | Plugins/Landscaping/Source/Landscaping/Private/ALandscapingProcMeshLandscape.cpp:121 | one texture coordinate per vertex of the line |
| ProcMeshLandscape.UVGrid | Plugins/Landscaping/Source/Landscaping/Private/ALandscapingProcMeshLandscape.cpp:114-124 | one line of texture coordinates per grid line |
| ProcMeshLandscape.UVsInUnitSquare | Plugins/Landscaping/Source/Landscaping/Private/ALandscapingProcMeshLandscape.cpp:121 | one texture coordinate per vertex, each inside the unit square |
| ProcMeshLandscape.Quad | Plugins/Landscaping/Source/Landscaping/Private/ALandscapingProcMeshLandscape.cpp:132-140 | a quad is two triangles, six indices |
| ProcMeshLandscape.QuadRow | Plugins/Landscaping/Source/Landscaping/Private/ALandscapingProcMeshLandscape.cpp:130-141 | XSize - 1 quads per grid row, left to right |
| ProcMeshLandscape.QuadGrid | Plugins/Landscaping/Source/Landscaping/Private/ALandscapingProcMeshLandscape.cpp:128-142 | YSize - 1 rows of quads |
| ProcMeshLandscape.QuadsInOrder | Plugins/Landscaping/Source/Landscaping/Private/ALandscapingProcMeshLandscape.cpp:128-142 | (XSize - 1) * (YSize - 1) quads of six indices |
| ProcMeshLandscape.TrianglesCount | Plugins/Landscaping/Source/Landscaping/Private/ALandscapingProcMeshLandscape.cpp:126-143 | 6 * (XSize - 1) * (YSize - 1) indices |
| ProcMeshLandscape.QuadAt | Plugins/Landscaping/Source/Landscaping/Private/ALandscapingProcMeshLandscape.cpp:132-140 | indices 6q..6q+5 are the triangles (idx, idx+XSize, idx+1) and (idx+1, idx+XSize, idx+XSize+1) of quad q |
| ProcMeshLandscape.QuadOfGrid | Plugins/Landscaping/Source/Landscaping/Private/ALandscapingProcMeshLandscape.cpp:128-142 | quad number i * (XSize - 1) + j is the quad at grid cell (j, i) |
| ProcMeshLandscape.TriangleIndicesInRange | Plugins/Landscaping/Source/Landscaping/Private/ALandscapingProcMeshLandscape.cpp:126-143 | every index names one of the XSize * YSize vertices |
| ProcMeshLandscape.QuadInRange | Plugins/Landscaping/Source/Landscaping/Private/ALandscapingProcMeshLandscape.cpp:132-140 | a quad's indices stay inside the grid |
| ProcMeshLandscape.ProcMeshLandscape.constructor | Plugins/Landscaping/Source/Landscaping/Public/ALandscapingProcMeshLandscape.h:31-38 | an empty mesh whose scale is 100 on every axis (one metre in centimetres) |
| ProcMeshLandscape.ProcMeshLandscape.CreateMesh | Plugins/Landscaping/Source/Landscaping/Private/ALandscapingProcMeshLandscape.cpp:31-48 | stores the size and heights, sets the spacing to 100 times the absolute pixel size, and appends the grid's vertices, UVs and triangles |
| ProcMeshLandscape.ProcMeshLandscape.CreateVertices | Plugins/Landscaping/Source/Landscaping/Private/ALandscapingProcMeshLandscape.cpp:114-124 | appends exactly VertexGrid and UVGrid, row by row |
| ProcMeshLandscape.GridVertices | Plugins/Landscaping/Source/Landscaping/Private/ALandscapingProcMeshLandscape.cpp:116-123 | the two loops produce exactly the flattened VertexGrid and UVGrid: one vertex and one UV per sample, grid line by grid line |
| ProcMeshLandscape.LineVertices | Plugins/Landscaping/Source/Landscaping/Private/ALandscapingProcMeshLandscape.cpp:118-122 | the inner loop produces grid line i: vertex j at (j * Scale.X, i * Scale.Y, 100 * sample i * XSize + j) and UV (j / (XSize - 1), i / (YSize - 1)) |
| ProcMeshLandscape.ProcMeshLandscape.CreateTriangles | Plugins/Landscaping/Source/Landscaping/Private/ALandscapingProcMeshLandscape.cpp:126-143 | appends exactly the grid's triangles, row by row |
| ProcMeshLandscape.QuadIndices | Plugins/Landscaping/Source/Landscaping/Private/ALandscapingProcMeshLandscape.cpp:129-142 | the two loops produce exactly the index buffer Triangles: the quads of every grid row but the last, row by row |
| ProcMeshLandscape.QuadRowIndices | Plugins/Landscaping/Source/Landscaping/Private/ALandscapingProcMeshLandscape.cpp:131-141 | the inner loop produces the two triangles of each quad of one grid row, left to right |
| ProcMeshLandscape.QuadRowsUpToAll | Plugins/Landscaping/Source/Landscaping/Private/ALandscapingProcMeshLandscape.cpp:129-142 | building the buffer one row of quads at a time gives the whole grid of quads, flattened |
| MapboxConverter.TilesAtZoom | Plugins/LandscapingMapbox/Source/LandscapingMapbox/Private/MapboxConverter.h:16 | the shift 1 << z gives at least one tile |
| MapboxConverter.TileXToLonEnds | Plugins/LandscapingMapbox/Source/LandscapingMapbox/Private/MapboxConverter.h:26-29 | column 0 starts at -180 degrees and column 2^z ends at 180 |
| MapboxConverter.TileXToLonIncreasing | Plugins/LandscapingMapbox/Source/LandscapingMapbox/Private/MapboxConverter.h:26-29 | later columns start further east |
| MapboxConverter.LonToTileXInRange | Plugins/LandscapingMapbox/Source/LandscapingMapbox/Private/MapboxConverter.h:14-17 | every longitude in [-180, 180) falls in one of the 2^z columns |
| MapboxConverter.LonInItsTile | Plugins/LandscapingMapbox/Source/LandscapingMapbox/Private/MapboxConverter.h:14-29 | the column LonToTileX finds is the one whose span holds the longitude |
| MapboxConverter.TileXRoundTrip | Plugins/LandscapingMapbox/Source/LandscapingMapbox/Private/MapboxConverter.h:14-29 | LonToTileX(TileXToLon(x)) == x for every column x |
| MapboxConverter.LonToTileXMonotone | Plugins/LandscapingMapbox/Source/LandscapingMapbox/Private/MapboxConverter.h:14-17 | LonToTileX never decreases as the longitude grows |
| MapboxDataSource.ValidateRequest | Plugins/LandscapingMapbox/Source/LandscapingMapbox/Private/MapboxDataSource.cpp:61-95 | valid iff the zoom is in 0..21, the latitudes within +-85.0511 and the longitudes within +-180; otherwise the message of the first failing check in the order zoom, top, bottom, right, left |
| MapboxDataSource.TerrainHeight | Plugins/LandscapingMapbox/Source/LandscapingMapbox/Private/MapboxDataSource.cpp:355-357 | a Terrain-RGB pixel decodes to -10000 + 0.1 * (R * 65536 + G * 256 + B) metres, within [-10000, 1667721.5] |
| MapboxDataSource.EncodeRgb | Plugins/LandscapingMapbox/Source/LandscapingMapbox/Private/MapboxDataSource.cpp:355-357 | the byte triple a 24-bit value is encoded as has three bytes |
| MapboxDataSource.EncodeThenValue | Plugins/LandscapingMapbox/Source/LandscapingMapbox/Private/MapboxDataSource.cpp:355-357 | encoding a 24-bit value and reading it back gives the value |
| MapboxDataSource.ValueThenEncode | Plugins/LandscapingMapbox/Source/LandscapingMapbox/Private/MapboxDataSource.cpp:355-357 | every pixel is the encoding of its value, so decoding loses nothing |
| MapboxDataSource.TerrainHeightInjective | Plugins/LandscapingMapbox/Source/LandscapingMapbox/Private/MapboxDataSource.cpp:355-357 | distinct pixels decode to distinct heights |
| MapboxDataSource.EnoughDataAsWrittenReadsPastEnd | Plugins/LandscapingMapbox/Source/LandscapingMapbox/Private/MapboxDataSource.cpp:331-336 | the guard lets a 128 x 128 image through for a 256 x 256 tile, whose last pixel lies past the buffer |
| MapboxDataSource.DecodedRow | Plugins/LandscapingMapbox/Source/LandscapingMapbox/Private/MapboxDataSource.cpp:349-364 | a decoded row holds one sample per column |
| MapboxDataSource.DecodeTerrain | Plugins/LandscapingMapbox/Source/LandscapingMapbox/Private/MapboxDataSource.cpp:331-366 | decoding succeeds iff the buffer holds four bytes per pixel, and then gives DimX rows of DimY samples |
| MapboxDataSource.DecodedSample | Plugins/LandscapingMapbox/Source/LandscapingMapbox/Private/MapboxDataSource.cpp:338-366 | sample (row, col) is the height of pixel row * DimY + col |
| MapboxDataSource.TileColumn | Plugins/LandscapingMapbox/Source/LandscapingMapbox/Private/MapboxDataSource.cpp:192 | the inner loop visits rows miny..maxy of one column, top to bottom |
| MapboxDataSource.TileGrid | Plugins/LandscapingMapbox/Source/LandscapingMapbox/Private/MapboxDataSource.cpp:190-192 | the outer loop visits columns minx..maxx |
| MapboxDataSource.TotalRequests | Plugins/LandscapingMapbox/Source/LandscapingMapbox/Private/MapboxDataSource.cpp:175-176 | the number of visited tiles; positive iff both spans are non-empty, and then equal to the product the source computes |
| MapboxDataSource.SwappedBoxCountsPhantomRequests | Plugins/LandscapingMapbox/Source/LandscapingMapbox/Private/MapboxDataSource.cpp:175-192 | with both spans reversed the product counts 4 requests while the loops visit no tile |
| MapboxDataSource.Widen | Plugins/LandscapingMapbox/Source/LandscapingMapbox/Private/MapboxDataSource.cpp:159-165 | satellite and vector requests add a ring of tiles, clamped at row and column 0 |
| MapboxDataSource.TileInGrid | Plugins/LandscapingMapbox/Source/LandscapingMapbox/Private/MapboxDataSource.cpp:190-192 | a tile is visited iff its column and row lie in the range |
| MapboxDataSource.WidenContains | Plugins/LandscapingMapbox/Source/LandscapingMapbox/Private/MapboxDataSource.cpp:159-165 | widening never loses a tile of the range |
| MapboxDataSource.TileDataSpan | Plugins/LandscapingMapbox/Source/LandscapingMapbox/Private/MapboxDataSource.cpp:205-215 | a tile's record: the tileset resolution, WGS 84, its column's west and east edges with west < east, a pixel width spanning the column, three bands only for satellite imagery |
| MapboxDataSource.Cached | Plugins/LandscapingMapbox/Source/LandscapingMapbox/Private/MapboxDataSource.cpp:221-229 | the cached (or uncached) tiles, in order |
| MapboxDataSource.CachedSplit | Plugins/LandscapingMapbox/Source/LandscapingMapbox/Private/MapboxDataSource.cpp:221-229 | every tile is either cached or requested |
| MapboxDataSource.DataOf | Plugins/LandscapingMapbox/Source/LandscapingMapbox/Private/MapboxDataSource.cpp:193-215 | one record per tile |
| MapboxDataSource.RequestsOf | Plugins/LandscapingMapbox/Source/LandscapingMapbox/Private/MapboxDataSource.cpp:216-226 | one request per tile, carrying its record |
| MapboxDataSource.MapboxDataSource.constructor | Plugins/LandscapingMapbox/Source/LandscapingMapbox/Private/MapboxDataSource.cpp:9-22 | the zoom levels come from the settings; no request is pending |
| MapboxDataSource.MapboxDataSource.SetExtents | Plugins/LandscapingMapbox/Source/LandscapingMapbox/Private/MapboxDataSource.cpp:34-42 | stores the box and the landscape tile index and nothing else |
| MapboxDataSource.MapboxDataSource.FinishResponse | Plugins/LandscapingMapbox/Source/LandscapingMapbox/Private/MapboxDataSource.cpp:389-398 | counts one completion, keeps the record, and broadcasts once the completions reach the total |
| MapboxDataSource.MapboxDataSource.AbortWithError | Plugins/LandscapingMapbox/Source/LandscapingMapbox/Private/MapboxDataSource.cpp:380-387 | counts one completion without a record, and broadcasts once the completions reach the total |
| MapboxDataSource.MapboxDataSource.FetchData | Plugins/LandscapingMapbox/Source/LandscapingMapbox/Private/MapboxDataSource.cpp:44-59 | reloads the zoom levels from the settings, then requests the stored box: an invalid box yields one error record and a broadcast and no request; a valid one takes the tileset's zoom and tile size and requests the tiles covering the box as Request states (error record when none, nothing when declined at the warning limit, otherwise every tile visited), with the corrected request count, TotalRequests, of the Findings |
| MapboxDataSource.MapboxDataSource.Request | Plugins/LandscapingMapbox/Source/LandscapingMapbox/Private/MapboxDataSource.cpp:97-241 | an invalid request appends the validation error and broadcasts; otherwise the tiles covering the box are visited and the completions never exceed the count, with the corrected request count, TotalRequests, of the Findings |
| MapboxDataSource.MapboxDataSource.SelectTileset | Plugins/LandscapingMapbox/Source/LandscapingMapbox/Private/MapboxDataSource.cpp:117-153 | satellite and vector use their own zoom at 256 px; terrain from Terrain-DEM v1 caps the zoom at 14 and uses 512 px tiles |
| MapboxDataSource.MapboxDataSource.RequestRange | Plugins/LandscapingMapbox/Source/LandscapingMapbox/Private/MapboxDataSource.cpp:155-240 | the range, the count, the warning (a refused warning requests nothing), the visits, or the error record when no tile is in range (with the corrected request count, TotalRequests, of the Findings) |
| MapboxDataSource.MapboxDataSource.RequestTiles | Plugins/LandscapingMapbox/Source/LandscapingMapbox/Private/MapboxDataSource.cpp:190-231 | visits every tile of the grid in order: cached tiles finish at once, the others start a request |
| MapboxDataSource.MapboxDataSource.RequestColumn | Plugins/LandscapingMapbox/Source/LandscapingMapbox/Private/MapboxDataSource.cpp:192-230 | visits one column's tiles |
| MapboxDataSource.MapboxDataSource.VisitTile | Plugins/LandscapingMapbox/Source/LandscapingMapbox/Private/MapboxDataSource.cpp:193-229 | a cached tile finishes at once, any other starts a request with its record |
| MapboxDataSource.CompleteIffAllCached | Plugins/LandscapingMapbox/Source/LandscapingMapbox/Private/MapboxDataSource.cpp:175-231 | after the loops, the completions reach the count (and the delegate fired once) iff no tile had to be fetched |
| MotionManager.TapDetect | Plugins/TouchEditor/Source/TouchInterface/Private/Components/MotionManager.cpp:66-108 | a tap fires only from an armed detector and disarms it; Left latches the left flag, Right the right one; with no latch to clear and no tap nothing changes |
| MotionManager.TapOnlyWhenArmed | Plugins/TouchEditor/Source/TouchInterface/Private/Components/MotionManager.cpp:87-90 | no tap while disarmed, and a tap disarms |
| MotionManager.TapDirection | Plugins/TouchEditor/Source/TouchInterface/Private/Components/MotionManager.cpp:92-107 | armed and with no latch to clear, y >= MinDelta fires Left, y <= -MinDelta (below MinDelta) fires Right, anything in between changes nothing |
| MotionManager.LatchClears | Plugins/TouchEditor/Source/TouchInterface/Private/Components/MotionManager.cpp:70-85 | a latched side clears once the acceleration is back across zero, and that tick fires nothing |
| MotionManager.NoTapUntilRearmed | Plugins/TouchEditor/Source/TouchInterface/Private/Components/MotionManager.cpp:87-90 | after a tap no further tap fires, whatever the readings, until the timer re-arms the detector |
| MotionManager.MotionManagerComponent.constructor | Plugins/TouchEditor/Source/TouchInterface/Private/Components/MotionManager.cpp:14-23 | tap threshold 2, re-arm delay 0.25 s, armed, no latch |
| MotionManager.MotionManagerComponent.TapDetector | Plugins/TouchEditor/Source/TouchInterface/Private/Components/MotionManager.cpp:66-108 | the flags become those of TapDetect; a tap is broadcast and arms the re-arming timer |
| MotionManager.MotionManagerComponent.OnTapTimerElapsed | Plugins/TouchEditor/Source/TouchInterface/Private/Components/MotionManager.cpp:97 | the timer's callback arms the detector again |
| MotionManager.MotionManagerComponent.TickComponent | Plugins/TouchEditor/Source/TouchInterface/Private/Components/MotionManager.cpp:37-51 | takes the reading when a player controller gives one, then runs the tap detector on it |
| ShapeRecognition.TouchStarted | Plugins/TouchEditor/Source/TouchInterface/Private/Components/ShapeManager.cpp:33-62 | only the first finger draws, and not while computing; a new stroke starts with a start dot, appended to the pending drawing when the timer was running |
| ShapeRecognition.TouchMoved | Plugins/TouchEditor/Source/TouchInterface/Private/Components/ShapeManager.cpp:64-80 | while drawing, a dot is added iff it is farther than ShapeDotDistance from the last dot |
| ShapeRecognition.TouchEndedSpec | Plugins/TouchEditor/Source/TouchInterface/Private/Components/ShapeManager.cpp:82-108 | an end near the first dot snaps onto it, and the last dot becomes the stroke's end |
| ShapeRecognition.TouchStartedKeepsWellFormed | Plugins/TouchEditor/Source/TouchInterface/Private/Components/ShapeManager.cpp:33-62 | a touch start keeps the drawing well formed |
| ShapeRecognition.TouchMovedKeepsWellFormed | Plugins/TouchEditor/Source/TouchInterface/Private/Components/ShapeManager.cpp:64-80 | a move keeps the drawing well formed |
| ShapeRecognition.TouchEndedKeepsWellFormed | Plugins/TouchEditor/Source/TouchInterface/Private/Components/ShapeManager.cpp:82-108 | a touch end keeps the drawing well formed |
| ShapeRecognition.AfterCompute | Plugins/TouchEditor/Source/TouchInterface/Private/Components/ShapeManager.cpp:336-338 | the drawing is emptied and the recorder released |
| ShapeRecognition.AfterComputeAsWritten | Plugins/TouchEditor/Source/TouchInterface/Private/Components/ShapeManager.cpp:289-306 | as written, the restricted branch returns with the recorder still computing and the drawing kept |
| ShapeRecognition.RestrictedComputeLocksRecorder | Plugins/TouchEditor/Source/TouchInterface/Private/Components/ShapeManager.cpp:289-306 | after a restricted recognition no later touch changes the recorder |
| ShapeRecognition.ComputeReleasesRecorder | Plugins/TouchEditor/Source/TouchInterface/Private/Components/ShapeManager.cpp:336-338 | corrected, the next first-finger touch after a recognition starts a new drawing |
| ShapeRecognition.SimplifyUpTo | Plugins/TouchEditor/Source/TouchInterface/Private/Components/ShapeManager.cpp:165-205 | the key dots of the first n drawn dots begin with the drawing's start point |
| ShapeRecognition.SimplifyStep | Plugins/TouchEditor/Source/TouchInterface/Private/Components/ShapeManager.cpp:170-205 | one loop step keeps the key dots so far and appends at most one |
| ShapeRecognition.MarkersAppend | Plugins/TouchEditor/Source/TouchInterface/Private/Components/ShapeManager.cpp:170-180 | the stroke markers of a drawing extended by one dot |
| ShapeRecognition.SimplifyKeepsMarkers | Plugins/TouchEditor/Source/TouchInterface/Private/Components/ShapeManager.cpp:170-205 | the key dots of a prefix keep its start and end points |
| ShapeRecognition.KeyDotsKeepStrokes | Plugins/TouchEditor/Source/TouchInterface/Private/Components/ShapeManager.cpp:170-205 | simplification keeps every stroke: the key dots start and end strokes exactly at the drawn start and end points, in order |
| ShapeRecognition.SimplifyStepMarkers | Plugins/TouchEditor/Source/TouchInterface/Private/Components/ShapeManager.cpp:170-205 | one more drawn dot adds exactly its own marker |
| ShapeRecognition.SimplifyDrawing | Plugins/TouchEditor/Source/TouchInterface/Private/Components/ShapeManager.cpp:165-205 | the loop computes KeyDots |
| ShapeRecognition.Scores | Plugins/TouchEditor/Source/TouchInterface/Private/Components/ShapeManager.cpp:291-295 | one score per shape, in order |
| ShapeRecognition.Names | Plugins/TouchEditor/Source/TouchInterface/Private/Components/ShapeManager.cpp:291-293 | one name per shape, in order |
| ShapeRecognition.RestrictedFromSpec | Plugins/TouchEditor/Source/TouchInterface/Private/Components/ShapeManager.cpp:289-303 | the restricted recognition succeeds iff a shape of that name scores above 60, with the first such shape |
| ShapeRecognition.BestMatchSpec | Plugins/TouchEditor/Source/TouchInterface/Private/Components/ShapeManager.cpp:308-320 | the best score above 0 and the first shape that has it, or (0, none) |
| ShapeRecognition.UnrestrictedDecisionAsWritten | Plugins/TouchEditor/Source/TouchInterface/Private/Components/ShapeManager.cpp:326-334 | as written, a negative threshold with no positive score dereferences a null shape |
| ShapeRecognition.NegativeThresholdDetectsNullShape | Plugins/TouchEditor/Source/TouchInterface/Private/Components/ShapeManager.cpp:308-334 | an empty shape list or a zero score with threshold -1 reaches the null shape |
| ShapeRecognition.UnrestrictedDecisionSpec | Plugins/TouchEditor/Source/TouchInterface/Private/Components/ShapeManager.cpp:308-334 | corrected, success iff some score exceeds both 0 and the threshold, with the first best-scoring shape |
| ShapeRecognition.RecognizeDrawing | Plugins/TouchEditor/Source/TouchInterface/Private/Components/ShapeManager.cpp:150-335 | key dots, geometry, scores and decision, as Recognition defines them |
| ShapeRecognition.Recognize | Plugins/TouchEditor/Source/TouchInterface/Private/Components/ShapeManager.cpp:287-335 | the decision Decide takes on the shapes' scores |
| ShapeRecognition.ScoreAll | Plugins/TouchEditor/Source/TouchInterface/Private/Components/ShapeManager.cpp:311-314 | every shape's Evaluate score, in order |
| ShapeRecognition.RecognizeRestricted | Plugins/TouchEditor/Source/TouchInterface/Private/Components/ShapeManager.cpp:289-306 | the restricted loop finds the first shape of that name scoring above 60 |
| ShapeRecognition.RecognizeBest | Plugins/TouchEditor/Source/TouchInterface/Private/Components/ShapeManager.cpp:308-320 | the loop computes BestMatch |
| ShapeRecognition.UShapeManager.constructor | Plugins/TouchEditor/Source/TouchInterface/Private/Components/ShapeManager.cpp:15-31 | the shapes and the dot distance setting, no restriction, an empty recorder |
| ShapeRecognition.UShapeManager.OnTouchStarted | Plugins/TouchEditor/Source/TouchInterface/Private/Components/ShapeManager.cpp:33-62 | the recorder becomes TouchStarted of the old one; the touch is consumed iff lower priorities are blocked |
| ShapeRecognition.UShapeManager.OnTouchMoved | Plugins/TouchEditor/Source/TouchInterface/Private/Components/ShapeManager.cpp:64-80 | the recorder becomes TouchMoved of the old one |
| ShapeRecognition.UShapeManager.OnTouchEnded | Plugins/TouchEditor/Source/TouchInterface/Private/Components/ShapeManager.cpp:82-108 | the recorder becomes TouchEnded of the old one |
| ShapeRecognition.UShapeManager.RestrictRecognizerToShapeByName | Plugins/TouchEditor/Source/TouchInterface/Private/Components/ShapeManager.cpp:120-132 | true iff a shape of that name (ignoring case) exists, which then becomes the restriction |
| ShapeRecognition.UShapeManager.RestrictRecognizerToShapeByAsset | Plugins/TouchEditor/Source/TouchInterface/Private/Components/ShapeManager.cpp:134-143 | a shape of this component becomes the restriction by its name; any other is ignored |
| ShapeRecognition.UShapeManager.ClearRecognizerRestriction | Plugins/TouchEditor/Source/TouchInterface/Public/Components/ShapeManager.h:81 | no restriction remains |
| ShapeRecognition.UShapeManager.ClearData | Plugins/TouchEditor/Source/TouchInterface/Private/Components/ShapeManager.cpp:346-349 | the drawing is emptied |
| ShapeRecognition.UShapeManager.Compute | Plugins/TouchEditor/Source/TouchInterface/Private/Components/ShapeManager.cpp:150-339 | records the broadcast of the RecognizeDrawing decision and releases the recorder with an empty drawing (corrected on the restricted path and on the unrestricted decision, which reports success only for a detected shape; see the Findings) |
| VirtualShape.FirstMatch | Plugins/TouchEditor/Source/TouchInterface/Private/Classes/VirtualShape.cpp:211-221 | the first reference near the drawn value, or -1 when none is |
| VirtualShape.UnmatchedBounds | Plugins/TouchEditor/Source/TouchInterface/Private/Classes/VirtualShape.cpp:203-222 | each drawn value consumes at most one reference, so the failures number at least the reference count minus the drawn count and at most the reference count |
| VirtualShape.AngleValues | Plugins/TouchEditor/Source/TouchInterface/Private/Classes/VirtualShape.cpp:203-206 | the reference angle values, in order |
| VirtualShape.Directions | Plugins/TouchEditor/Source/TouchInterface/Private/Classes/VirtualShape.cpp:266-269 | the reference line directions, in order |
| VirtualShape.AngleScore | Plugins/TouchEditor/Source/TouchInterface/Private/Classes/VirtualShape.cpp:183-253 | in [0, 100]; 100 when neither side has an angle, 0 when exactly one has, 0 when more than two reference angles find no drawn angle within 5 degrees |
| VirtualShape.LineScore | Plugins/TouchEditor/Source/TouchInterface/Private/Classes/VirtualShape.cpp:255-317 | in [0, 100]; 0 when more than two reference directions find no drawn line with a dot product of at least 0.85 |
| VirtualShape.DotScore | Plugins/TouchEditor/Source/TouchInterface/Private/Classes/VirtualShape.cpp:319-334 | 100 less 10 per missing or extra dot, at least 0; 100 iff the counts agree |
| VirtualShape.EvaluateScoreSpec | Plugins/TouchEditor/Source/TouchInterface/Private/Classes/VirtualShape.cpp:27-60 | the score is undefined (0/0) iff no filter bit is set, lies in [0, 100] otherwise, and one filter alone gives its own score |
| VirtualShape.PerfectDrawingScoresFull | Plugins/TouchEditor/Source/TouchInterface/Private/Classes/VirtualShape.cpp:183-317 | the reference's own angles and lines score full marks |
| VirtualShape.SelfMatch | Plugins/TouchEditor/Source/TouchInterface/Private/Classes/VirtualShape.cpp:211-221 | drawn values each near their reference leave no reference unmatched |
| VirtualShape.BoundsExtreme | Plugins/TouchEditor/Source/TouchInterface/Private/Classes/VirtualShape.cpp:72-94 | no dot lies strictly beyond the top-left or bottom-right bound |
| VirtualShape.Relative | Plugins/TouchEditor/Source/TouchInterface/Private/Classes/VirtualShape.cpp:159-171 | each dot seen from the bound centre, keeping its start and end flags |
| VirtualShape.LinesUpTo | Plugins/TouchEditor/Source/TouchInterface/Private/Classes/VirtualShape.cpp:110-134 | after k steps of the line loop there is at least one line |
| VirtualShape.LinesUpToSpec | Plugins/TouchEditor/Source/TouchInterface/Private/Classes/VirtualShape.cpp:110-134 | one line per dot that is not an end point (the last dot excepted) |
| VirtualShape.CornersUpToSpec | Plugins/TouchEditor/Source/TouchInterface/Private/Classes/VirtualShape.cpp:137-153 | one corner per line that does not end a stroke; a corner is flagged right exactly when 88 <= angle < 92 |
| VirtualShape.GeometryOf | Plugins/TouchEditor/Source/TouchInterface/Private/Classes/VirtualShape.cpp:63-156 | the bounds, the relative dots and the totals of line lengths and corner angles of the derived geometry |
| VirtualShape.ComputeGeometry | Plugins/TouchEditor/Source/TouchInterface/Private/Classes/VirtualShape.cpp:63-156 | SetDotData's loops compute GeometryOf |
| VirtualShape.ComputeBounds | Plugins/TouchEditor/Source/TouchInterface/Private/Classes/VirtualShape.cpp:72-94 | the bounds loop computes Bounds |
| VirtualShape.BuildLines | Plugins/TouchEditor/Source/TouchInterface/Private/Classes/VirtualShape.cpp:110-134 | the line loop builds the lines with their running total length and direction sum |
| VirtualShape.BuildCorners | Plugins/TouchEditor/Source/TouchInterface/Private/Classes/VirtualShape.cpp:137-153 | the corner loop builds the corners with their running total angle |
| VirtualShape.MatchAll | Plugins/TouchEditor/Source/TouchInterface/Private/Classes/VirtualShape.cpp:203-222 | the greedy matching loops leave exactly the unmatched references, and count them |
| VirtualShape.UVirtualShape.constructor | Plugins/TouchEditor/Source/TouchInterface/Private/Classes/VirtualShape.cpp:22-25 | a new shape with no dots, lines or angles and zero totals |
| VirtualShape.UVirtualShape.SetDotData | Plugins/TouchEditor/Source/TouchInterface/Private/Classes/VirtualShape.cpp:63-156 | stores the dots and derives GeometryOf them |
| VirtualShape.UVirtualShape.CalculateDataBasedOnBound | Plugins/TouchEditor/Source/TouchInterface/Private/Classes/VirtualShape.cpp:159-171 | the relative dots are the stored dots seen from the centre |
| VirtualShape.UVirtualShape.EvaluateAngles | Plugins/TouchEditor/Source/TouchInterface/Private/Classes/VirtualShape.cpp:183-253 | computes AngleScore |
| VirtualShape.UVirtualShape.EvaluateLines | Plugins/TouchEditor/Source/TouchInterface/Private/Classes/VirtualShape.cpp:255-317 | computes LineScore |
| VirtualShape.UVirtualShape.EvaluateDot | Plugins/TouchEditor/Source/TouchInterface/Private/Classes/VirtualShape.cpp:319-334 | computes DotScore |
| VirtualShape.UVirtualShape.Evaluate | Plugins/TouchEditor/Source/TouchInterface/Private/Classes/VirtualShape.cpp:27-60 | the mean of the enabled filters' scores |
| VirtualShapeDesigner.AbsVec | Plugins/TouchEditor/Source/VirtualShapeDesigner/Private/Viewport/SVirtualShapeDesignerViewport.h:36 | a vector's componentwise absolute value is non-negative |
| VirtualShapeDesigner.BoxSelection.constructor | Plugins/TouchEditor/Source/VirtualShapeDesigner/Private/Viewport/SVirtualShapeDesignerViewport.h:49-55 | the band starts at its origin with zero centre and extent |
| VirtualShapeDesigner.BoxSelection.GetOrigin | Plugins/TouchEditor/Source/VirtualShapeDesigner/Private/Viewport/SVirtualShapeDesignerViewport.cpp:39-57 | the band's top-left corner: the componentwise minimum of origin and pointer |
| VirtualShapeDesigner.BoxSelection.GetBoxExtend | Plugins/TouchEditor/Source/VirtualShapeDesigner/Private/Viewport/SVirtualShapeDesignerViewport.h:36 | half the band's width and height |
| VirtualShapeDesigner.BoxSelection.GetBoxSize | Plugins/TouchEditor/Source/VirtualShapeDesigner/Private/Viewport/SVirtualShapeDesignerViewport.h:37 | the band's width and height: the absolute difference between pointer and origin |
| VirtualShapeDesigner.BoxSelection.GetBoxMax | Plugins/TouchEditor/Source/VirtualShapeDesigner/Private/Viewport/SVirtualShapeDesignerViewport.h:39 | the band's bottom-right corner: the componentwise maximum |
| VirtualShapeDesigner.BoxSelection.UpdatePointerLocation | Plugins/TouchEditor/Source/VirtualShapeDesigner/Private/Viewport/SVirtualShapeDesignerViewport.cpp:24-37 | the band spans from the origin to the pointer, centred between them |
| VirtualShapeDesigner.DotInBoxIsStrictContainment | Plugins/TouchEditor/Source/VirtualShapeDesigner/Private/Viewport/SVirtualShapeDesignerViewport.cpp:1223-1229 | the test is strict containment between the band's corners |
| VirtualShapeDesigner.LastHovered | Plugins/TouchEditor/Source/VirtualShapeDesigner/Private/Viewport/SVirtualShapeDesignerViewport.cpp:566-578 | the last dot within reach of the location, or -1 |
| VirtualShapeDesigner.FindLastHovered | Plugins/TouchEditor/Source/VirtualShapeDesigner/Private/Viewport/SVirtualShapeDesignerViewport.cpp:566-578 | the search loop finds LastHovered |
| VirtualShapeDesigner.Deselected | Plugins/TouchEditor/Source/VirtualShapeDesigner/Private/Viewport/SVirtualShapeDesignerViewport.cpp:331-337 | every dot deselected, nothing else changed |
| VirtualShapeDesigner.DeselectAll | Plugins/TouchEditor/Source/VirtualShapeDesigner/Private/Viewport/SVirtualShapeDesignerViewport.cpp:331-337 | the loop computes Deselected |
| VirtualShapeDesigner.Flattened | Plugins/TouchEditor/Source/VirtualShapeDesigner/Private/Viewport/SVirtualShapeDesignerViewport.cpp:296-329 | flattening keeps the number of dots |
| VirtualShapeDesigner.FlattenDots | Plugins/TouchEditor/Source/VirtualShapeDesigner/Private/Viewport/SVirtualShapeDesignerViewport.cpp:296-329 | the two loops compute Flattened |
| VirtualShapeDesigner.FlattenedKeepsSelection | Plugins/TouchEditor/Source/VirtualShapeDesigner/Private/Viewport/SVirtualShapeDesignerViewport.cpp:296-329 | flattening keeps which dots are selected |
| VirtualShapeDesigner.FlattenSpec | Plugins/TouchEditor/Source/VirtualShapeDesigner/Private/Viewport/SVirtualShapeDesignerViewport.cpp:296-329 | the selected dots are levelled on their mean coordinate; every other dot and every other coordinate is unchanged |
| VirtualShapeDesigner.NoneSelected | Plugins/TouchEditor/Source/VirtualShapeDesigner/Private/Viewport/SVirtualShapeDesignerViewport.cpp:296-329 | a zero selected count means no dot is selected |
| VirtualShapeDesigner.FlattenIdempotent | Plugins/TouchEditor/Source/VirtualShapeDesigner/Private/Viewport/SVirtualShapeDesignerViewport.cpp:296-329 | flattening twice is flattening once |
| VirtualShapeDesigner.AddDotSpec | Plugins/TouchEditor/Source/VirtualShapeDesigner/Private/Viewport/SVirtualShapeDesignerViewport.cpp:774-797 | a new dot is a start point iff the list is empty or the last dot ends a stroke |
| VirtualShapeDesigner.EndStroke | Plugins/TouchEditor/Source/VirtualShapeDesigner/Private/Viewport/SVirtualShapeDesignerViewport.cpp:812-818 | ending a stroke keeps the number of dots |
| VirtualShapeDesigner.WithoutHoveredSpec | Plugins/TouchEditor/Source/VirtualShapeDesigner/Private/Viewport/SVirtualShapeDesignerViewport.cpp:1115-1136 | RemovePoint removes exactly the last dot under the cursor, keeping the others in order, and nothing when none is |
| VirtualShapeDesigner.NearestCell | Plugins/TouchEditor/Source/VirtualShapeDesigner/Private/Viewport/SVirtualShapeDesignerViewport.cpp:1185-1186 | the nearest multiple of the spacing lies within half a cell |
| VirtualShapeDesigner.SnapCell | Plugins/TouchEditor/Source/VirtualShapeDesigner/Private/Viewport/SVirtualShapeDesignerViewport.cpp:1183-1196 | the snapped cell lies less than half a cell below and at most 1.5 cells above; within half a cell for a coordinate of at least half a cell |
| VirtualShapeDesigner.BelowHalfCellMovesUp | Plugins/TouchEditor/Source/VirtualShapeDesigner/Private/Viewport/SVirtualShapeDesignerViewport.cpp:1185-1188 | every coordinate below half a cell, negative ones included, snaps one cell above its nearest grid line; every other coordinate snaps to its nearest line |
| VirtualShapeDesigner.NegativeLineSnapsUp | Plugins/TouchEditor/Source/VirtualShapeDesigner/Private/Viewport/SVirtualShapeDesignerViewport.cpp:1185-1188 | on a grid of 10, a point on the line -100 snaps to -90 |
| VirtualShapeDesigner.GetSnappingPositionAsWritten | Plugins/TouchEditor/Source/VirtualShapeDesigner/Private/Viewport/SVirtualShapeDesignerViewport.cpp:1191 | as written, the Y axis takes its larger candidate from the X axis |
| VirtualShapeDesigner.SnappedYFollowsX | Plugins/TouchEditor/Source/VirtualShapeDesigner/Private/Viewport/SVirtualShapeDesignerViewport.cpp:1191 | on a grid of 10, (-100, 50) snaps as written to (-90, -90) instead of (-90, 50) |
| VirtualShapeDesigner.SnappingSpec | Plugins/TouchEditor/Source/VirtualShapeDesigner/Private/Viewport/SVirtualShapeDesignerViewport.cpp:1183-1196 | each snapped coordinate is a grid line that depends only on its own input coordinate |
| VirtualShapeDesigner.Translated | Plugins/TouchEditor/Source/VirtualShapeDesigner/Private/Viewport/SVirtualShapeDesignerViewport.cpp:652-658 | moving the selection keeps the number of dots |
| VirtualShapeDesigner.TranslatedSnapped | Plugins/TouchEditor/Source/VirtualShapeDesigner/Private/Viewport/SVirtualShapeDesignerViewport.cpp:638-644 | moving the selection on the grid keeps the number of dots (with the corrected GetSnappingPosition of the Findings) |
| VirtualShapeDesigner.DragMovesOnlySelected | Plugins/TouchEditor/Source/VirtualShapeDesigner/Private/Viewport/SVirtualShapeDesignerViewport.cpp:638-658 | a drag moves only the selected dots, and only their locations |
| VirtualShapeDesigner.BoxSelected | Plugins/TouchEditor/Source/VirtualShapeDesigner/Private/Viewport/SVirtualShapeDesignerViewport.cpp:670-705 | the band keeps the number of dots |
| VirtualShapeDesigner.Hovered | Plugins/TouchEditor/Source/VirtualShapeDesigner/Private/Viewport/SVirtualShapeDesignerViewport.cpp:710-726 | hovering keeps the number of dots |
| VirtualShapeDesigner.HoverDots | Plugins/TouchEditor/Source/VirtualShapeDesigner/Private/Viewport/SVirtualShapeDesignerViewport.cpp:710-726 | the hover loop computes Hovered |
| VirtualShapeDesigner.SelectInBox | Plugins/TouchEditor/Source/VirtualShapeDesigner/Private/Viewport/SVirtualShapeDesignerViewport.cpp:670-705 | the band loops compute BoxSelected |
| VirtualShapeDesigner.MoveSelected | Plugins/TouchEditor/Source/VirtualShapeDesigner/Private/Viewport/SVirtualShapeDesignerViewport.cpp:633-659 | the move loops compute Translated, or TranslatedSnapped on the grid (with the corrected GetSnappingPosition of the Findings) |
| VirtualShapeDesigner.SVirtualShapeDesignerViewport.constructor | Plugins/TouchEditor/Source/VirtualShapeDesigner/Private/Viewport/SVirtualShapeDesignerViewport.cpp:86-90 | Construct (and GenerateDataFromVirtualShapeAsset, lines 246-259): the shape's dots, the select tool, a 10-unit grid with snapping off |
| VirtualShapeDesigner.SVirtualShapeDesignerViewport.ClearDotSelection | Plugins/TouchEditor/Source/VirtualShapeDesigner/Private/Viewport/SVirtualShapeDesignerViewport.cpp:331-337 | no dot stays selected; nothing else changes |
| VirtualShapeDesigner.SVirtualShapeDesignerViewport.ChangeToolMode | Plugins/TouchEditor/Source/VirtualShapeDesigner/Private/Viewport/SVirtualShapeDesignerViewport.cpp:282-289 | the selection is cleared and the tool changes |
| VirtualShapeDesigner.SVirtualShapeDesignerViewport.ClearDraw | Plugins/TouchEditor/Source/VirtualShapeDesigner/Private/Viewport/SVirtualShapeDesignerViewport.cpp:291-294 | no dot remains |
| VirtualShapeDesigner.SVirtualShapeDesignerViewport.Flatten | Plugins/TouchEditor/Source/VirtualShapeDesigner/Private/Viewport/SVirtualShapeDesignerViewport.cpp:296-329 | the dots become Flattened of the old dots |
| VirtualShapeDesigner.SVirtualShapeDesignerViewport.RemovePoint | Plugins/TouchEditor/Source/VirtualShapeDesigner/Private/Viewport/SVirtualShapeDesignerViewport.cpp:1115-1136 | the last dot under the cursor is removed and the drag selection dropped |
| VirtualShapeDesigner.SVirtualShapeDesignerViewport.OnAddEnded | Plugins/TouchEditor/Source/VirtualShapeDesigner/Private/Viewport/SVirtualShapeDesignerViewport.cpp:752-822 | the left button adds a dot (snapped when the grid is on) that starts a stroke iff the last one ended; the right button ends a stroke that is not a lone start (snapping with the corrected GetSnappingPosition of the Findings) |
| VirtualShapeDesigner.SVirtualShapeDesignerViewport.OnSelectStarted | Plugins/TouchEditor/Source/VirtualShapeDesigner/Private/Viewport/SVirtualShapeDesignerViewport.cpp:557-622 | a click on a dot adds it to, removes it from, or makes it the drag selection; a click elsewhere starts a band |
| VirtualShapeDesigner.SVirtualShapeDesignerViewport.OnDragDetected | Plugins/TouchEditor/Source/VirtualShapeDesigner/Private/Viewport/SVirtualShapeDesignerViewport.cpp:357-382 | dragging with a dot selected starts moving the selection |
| VirtualShapeDesigner.SVirtualShapeDesignerViewport.OnSelectMoved | Plugins/TouchEditor/Source/VirtualShapeDesigner/Private/Viewport/SVirtualShapeDesignerViewport.cpp:624-729 | the selection follows the pointer (on the grid once it moved a whole cell); a band changes the selection of the dots inside; otherwise only the last dot under the pointer is hovered (snapping with the corrected GetSnappingPosition of the Findings) |
| VirtualShapeDesigner.SVirtualShapeDesignerViewport.OnSelectEnded | Plugins/TouchEditor/Source/VirtualShapeDesigner/Private/Viewport/SVirtualShapeDesignerViewport.cpp:731-750 | moving, the drag selection and the band all end |
| TouchInterfaceSettings.DefaultSettings | Plugins/TouchEditor/Source/TouchInterface/Private/Settings/TouchInterfaceSettings.cpp:11-66 | the defaults: design-size scaling, design width 1920, multiplier 1 |
| TouchInterfaceSettings.UndoDPIScaling | Plugins/TouchEditor/Source/TouchInterface/Private/Settings/TouchInterfaceSettings.cpp:112-129 | 1 in the editor, 1 / LayoutScale at runtime; undefined only for a zero layout scale at runtime |
| TouchInterfaceSettings.GetScaleFactor | Plugins/TouchEditor/Source/TouchInterface/Private/Settings/TouchInterfaceSettings.cpp:105-136 | defined exactly when the mode's scale is |
| TouchInterfaceSettings.NoScalingFactor | Plugins/TouchEditor/Source/TouchInterface/Private/Settings/TouchInterfaceSettings.cpp:110-113 | no scaling: the multiplier in the editor, the multiplier over LayoutScale at runtime |
| TouchInterfaceSettings.DesignSizeFactor | Plugins/TouchEditor/Source/TouchInterface/Private/Settings/TouchInterfaceSettings.cpp:115-120 | design size: the larger side over DesignWidth (over LayoutScale at runtime), times the multiplier |
| TouchInterfaceSettings.CustomAndDPIFactor | Plugins/TouchEditor/Source/TouchInterface/Private/Settings/TouchInterfaceSettings.cpp:122-133 | Custom without a loaded class, and DPI at runtime, give the multiplier; DPI in the editor gives the curve's scale times the multiplier |
| TouchInterfaceSettings.ScaleMultiplierIsLinear | Plugins/TouchEditor/Source/TouchInterface/Private/Settings/TouchInterfaceSettings.cpp:135 | scaling the multiplier by k scales the factor by k, in every mode |
| TouchInterfaceSettings.RuntimeUndoesLayoutScale | Plugins/TouchEditor/Source/TouchInterface/Private/Settings/TouchInterfaceSettings.cpp:105-136 | outside DPI mode the runtime factor is the editor factor over LayoutScale, and the editor factor ignores the layout scale |
| TouchInterfaceSettings.OnScalingModeChanged | Plugins/TouchEditor/Source/TouchInterface/Private/Settings/TouchInterfaceSettings.cpp:69-102 | a custom scaling instance is held iff the mode is Custom and its class was found; nothing else changes |
| TouchInterfaceSettings.MissingCustomClassFallsBack | Plugins/TouchEditor/Source/TouchInterface/Private/Settings/TouchInterfaceSettings.cpp:69-136 | Custom mode whose class was not found scales by the multiplier alone |
| TouchInterfaceSettings.DefaultDesignScale | Plugins/TouchEditor/Source/TouchInterface/Private/Settings/TouchInterfaceSettings.cpp:20-23 | with the defaults, a 1920-wide surface in the editor has scale 1 |
| DeviceProfile.IndexOf | Plugins/TouchEditor/Source/TouchInterfaceDesigner/Private/Settings/TouchInterfaceDesignerDeviceProfile.cpp:124 | the position of the entry whose name equals the key ignoring case, or -1 |
| DeviceProfile.Put | Plugins/TouchEditor/Source/TouchInterfaceDesigner/Private/Settings/TouchInterfaceDesignerDeviceProfile.cpp:109 | adding yields only the new entry or old ones |
| DeviceProfile.PutSpec | Plugins/TouchEditor/Source/TouchInterfaceDesigner/Private/Settings/TouchInterfaceDesignerDeviceProfile.cpp:107-120 | adding keeps names unique, maps the name to the new profile and leaves every other name's profile as it was |
| DeviceProfile.PutKeepsUnique | Plugins/TouchEditor/Source/TouchInterfaceDesigner/Private/Settings/TouchInterfaceDesignerDeviceProfile.cpp:109 | adding keeps names unique |
| DeviceProfile.PutKeepsOthers | Plugins/TouchEditor/Source/TouchInterfaceDesigner/Private/Settings/TouchInterfaceDesignerDeviceProfile.cpp:109 | adding leaves every other name's lookup unchanged |
| DeviceProfile.PutFinds | Plugins/TouchEditor/Source/TouchInterfaceDesigner/Private/Settings/TouchInterfaceDesignerDeviceProfile.cpp:109 | what was just added is what its name finds |
| DeviceProfile.Find | Plugins/TouchEditor/Source/TouchInterfaceDesigner/Private/Settings/TouchInterfaceDesignerDeviceProfile.cpp:122-131 | no profile iff no entry's name equals the key ignoring case |
| DeviceProfile.FindOwnEntry | Plugins/TouchEditor/Source/TouchInterfaceDesigner/Private/Settings/TouchInterfaceDesignerDeviceProfile.cpp:122-131 | with unique names every entry is what its own name finds |
| DeviceProfile.NamesInCategory | Plugins/TouchEditor/Source/TouchInterfaceDesigner/Private/Settings/TouchInterfaceDesignerDeviceProfile.cpp:133-148 | at most one name per entry |
| DeviceProfile.NamesInCategorySpec | Plugins/TouchEditor/Source/TouchInterfaceDesigner/Private/Settings/TouchInterfaceDesignerDeviceProfile.cpp:133-148 | a name is listed iff it is registered with a profile of that category |
| DeviceProfile.ProfilesInCategory | Plugins/TouchEditor/Source/TouchInterfaceDesigner/Private/Settings/TouchInterfaceDesignerDeviceProfile.cpp:173-192 | only profiles of the category are listed |
| DeviceProfile.ProfilesInCategoryEmpty | Plugins/TouchEditor/Source/TouchInterfaceDesigner/Private/Settings/TouchInterfaceDesignerDeviceProfile.cpp:173-192 | the list is empty iff no profile of the category is registered |
| DeviceProfile.CategoryRuns | Plugins/TouchEditor/Source/TouchInterfaceDesigner/Private/Settings/TouchInterfaceDesignerDeviceProfile.cpp:150-171 | at most one category per profile |
| DeviceProfile.CategoryRunsDistinct | Plugins/TouchEditor/Source/TouchInterfaceDesigner/Private/Settings/TouchInterfaceDesignerDeviceProfile.cpp:150-171 | no listed category repeats the one before it, and none is NAME_None |
| DeviceProfile.CategoryListed | Plugins/TouchEditor/Source/TouchInterfaceDesigner/Private/Settings/TouchInterfaceDesignerDeviceProfile.cpp:150-171 | every profile's category other than NAME_None is listed |
| DeviceProfile.CategoryRunsEmpty | Plugins/TouchEditor/Source/TouchInterfaceDesigner/Private/Settings/TouchInterfaceDesignerDeviceProfile.cpp:150-171 | nothing is listed iff every category is NAME_None |
| DeviceProfile.InitialRegistrationsKinds | Plugins/TouchEditor/Source/TouchInterfaceDesigner/Private/Settings/TouchInterfaceDesignerDeviceProfile.cpp:26-100 | every registration at start-up is of a registered kind |
| DeviceProfile.SetProfilesFlags | Plugins/TouchEditor/Source/TouchInterfaceDesigner/Private/Settings/TouchInterfaceDesignerDeviceProfile.cpp:107-120 | only SetGenericProfile flags a profile generic, and only SetAppleProfile stores a logical resolution |
| DeviceProfile.DeviceProfileRegistry.constructor | Plugins/TouchEditor/Source/TouchInterfaceDesigner/Private/Settings/TouchInterfaceDesignerDeviceProfile.cpp:19-24 | an empty registry |
| DeviceProfile.DeviceProfileRegistry.SetAndroidProfile | Plugins/TouchEditor/Source/TouchInterfaceDesigner/Private/Settings/TouchInterfaceDesignerDeviceProfile.cpp:107-110 | registers a non-generic profile without a logical resolution |
| DeviceProfile.DeviceProfileRegistry.SetAppleProfile | Plugins/TouchEditor/Source/TouchInterfaceDesigner/Private/Settings/TouchInterfaceDesignerDeviceProfile.cpp:112-115 | registers a non-generic profile with its logical resolution |
| DeviceProfile.DeviceProfileRegistry.SetGenericProfile | Plugins/TouchEditor/Source/TouchInterfaceDesigner/Private/Settings/TouchInterfaceDesignerDeviceProfile.cpp:117-120 | registers a generic profile without a logical resolution |
| DeviceProfile.DeviceProfileRegistry.Register | Plugins/TouchEditor/Source/TouchInterfaceDesigner/Private/Settings/TouchInterfaceDesignerDeviceProfile.cpp:109 | the map's Add, keeping names unique |
| DeviceProfile.DeviceProfileRegistry.Initialize | Plugins/TouchEditor/Source/TouchInterfaceDesigner/Private/Settings/TouchInterfaceDesignerDeviceProfile.cpp:26-100 | the registry becomes the old one with every start-up registration added through the map's Add in order; names stay unique and every profile is of a registered kind |
| DeviceProfile.DeviceProfileRegistry.Apply | Plugins/TouchEditor/Source/TouchInterfaceDesigner/Private/Settings/TouchInterfaceDesignerDeviceProfile.cpp:33-99 | one start-up line adds the registration's profile under its name |
| DeviceProfile.RegisterAllFinds | Plugins/TouchEditor/Source/TouchInterfaceDesigner/Private/Settings/TouchInterfaceDesignerDeviceProfile.cpp:26-100 | after the registrations, a name not registered again later finds the profile of its registration, and names stay unique |
| DeviceProfile.RegisterAllUnique | Plugins/TouchEditor/Source/TouchInterfaceDesigner/Private/Settings/TouchInterfaceDesignerDeviceProfile.cpp:26-100 | the registrations keep names unique |
| DeviceProfile.InitializeRegistersGeneric169 | Plugins/TouchEditor/Source/TouchInterfaceDesigner/Private/Settings/TouchInterfaceDesignerDeviceProfile.cpp:33 | after start-up, "Generic 16/9" is a generic 1920 x 1080 profile in the 16/9 format |
| DeviceProfile.DiffersIgnoringCase | Plugins/TouchEditor/Source/TouchInterfaceDesigner/Private/Settings/TouchInterfaceDesignerDeviceProfile.cpp:124 | names that differ in length, or ignoring case at one position, never match as map keys |
| DeviceProfile.DeviceProfileRegistry.GetProfile | Plugins/TouchEditor/Source/TouchInterfaceDesigner/Private/Settings/TouchInterfaceDesignerDeviceProfile.cpp:122-131 | found iff some entry's name equals the key ignoring case, and then that entry's profile |
| DeviceProfile.DeviceProfileRegistry.GetScreenDefinition | Plugins/TouchEditor/Source/TouchInterfaceDesigner/Private/Settings/TouchInterfaceDesignerDeviceProfile.cpp:194-204 | the profile's screen definition, zero for an unknown device |
| DeviceProfile.DeviceProfileRegistry.GetDeviceProfileName | Plugins/TouchEditor/Source/TouchInterfaceDesigner/Private/Settings/TouchInterfaceDesignerDeviceProfile.cpp:206-216 | the profile's device-profile name, empty for an unknown device |
| DeviceProfile.DeviceProfileRegistry.GetDeviceStyleName | Plugins/TouchEditor/Source/TouchInterfaceDesigner/Private/Settings/TouchInterfaceDesignerDeviceProfile.cpp:218-228 | the profile's style name, empty for an unknown device |
| DeviceProfile.DeviceProfileRegistry.GetAllProfileNameByCategory | Plugins/TouchEditor/Source/TouchInterfaceDesigner/Private/Settings/TouchInterfaceDesignerDeviceProfile.cpp:133-148 | the loop computes NamesInCategory |
| DeviceProfile.DeviceProfileRegistry.GetAllProfileByCategory | Plugins/TouchEditor/Source/TouchInterfaceDesigner/Private/Settings/TouchInterfaceDesignerDeviceProfile.cpp:173-192 | appends the category's profiles; true iff the output ends non-empty |
| DeviceProfile.DeviceProfileRegistry.GetAllCategories | Plugins/TouchEditor/Source/TouchInterfaceDesigner/Private/Settings/TouchInterfaceDesignerDeviceProfile.cpp:150-171 | appends the category runs; true iff the output ends non-empty |
| DeviceProfile.AppendCategoryRuns | Plugins/TouchEditor/Source/TouchInterfaceDesigner/Private/Settings/TouchInterfaceDesignerDeviceProfile.cpp:155-163 | the loop appends to the given list exactly one entry each time the profile category changes, the category runs |
| TouchDesignerViewport.Swap | Plugins/TouchEditor/Source/TouchInterfaceDesigner/Private/Viewport/STouchInterfaceDesignerViewport.cpp:1307-1310 | the sides exchanged |
| TouchDesignerViewport.ToggleOrientationTwice | Plugins/TouchEditor/Source/TouchInterfaceDesigner/Private/Viewport/STouchInterfaceDesignerViewport.cpp:1305-1324 | two orientation changes restore the size |
| TouchDesignerViewport.NormalizedToCanvasSpace | Plugins/TouchEditor/Source/TouchInterfaceDesigner/Private/Viewport/STouchInterfaceDesignerViewport.cpp:1201-1209 | the result lies on the canvas |
| TouchDesignerViewport.CanvasBeyondSizeLeavesUnitSquare | Plugins/TouchEditor/Source/TouchInterfaceDesigner/Private/Viewport/STouchInterfaceDesignerViewport.cpp:1191-1199 | a point right of a 1920-wide canvas normalises, as written, to x = 2 |
| TouchDesignerViewport.NormalizedRoundTripAsWritten | Plugins/TouchEditor/Source/TouchInterfaceDesigner/Private/Viewport/STouchInterfaceDesignerViewport.cpp:1191-1209 | as written, normalised to canvas and back returns the normalised point |
| TouchDesignerViewport.CanvasSpaceToNormalized | Plugins/TouchEditor/Source/TouchInterfaceDesigner/Private/Viewport/STouchInterfaceDesignerViewport.cpp:1191-1199 | corrected, the result lies in the unit square |
| TouchDesignerViewport.NormalizedRoundTrip | Plugins/TouchEditor/Source/TouchInterfaceDesigner/Private/Viewport/STouchInterfaceDesignerViewport.cpp:1191-1209 | normalised to canvas and back returns the normalised point |
| TouchDesignerViewport.CanvasRoundTrip | Plugins/TouchEditor/Source/TouchInterfaceDesigner/Private/Viewport/STouchInterfaceDesignerViewport.cpp:1191-1209 | a point on the canvas, normalised and back, returns itself |
| TouchDesignerViewport.ProfileWidthMatchesRatio | Plugins/TouchEditor/Source/TouchInterfaceDesigner/Private/Viewport/STouchInterfaceDesignerViewport.cpp:1539 | the width is the largest integer not above 1080 times the profile's aspect ratio |
| TouchDesignerViewport.LandscapeProfileWidth | Plugins/TouchEditor/Source/TouchInterfaceDesigner/Private/Viewport/STouchInterfaceDesignerViewport.cpp:1539 | a landscape screen definition with a positive height gives a width of at least 1080, so such a profile is usable |
| TouchDesignerViewport.InitialProfilesUsable | Plugins/TouchEditor/Source/TouchInterfaceDesigner/Private/Settings/TouchInterfaceDesignerDeviceProfile.cpp:26-100 | every profile registered at start-up meets OnScreenSizeButtonClicked's requirement |
| TouchDesignerViewport.RegisterAllUsable | Plugins/TouchEditor/Source/TouchInterfaceDesigner/Private/Settings/TouchInterfaceDesignerDeviceProfile.cpp:26-100 | registering usable profiles keeps every entry of the registry usable |
| TouchDesignerViewport.StartupLookupUsable | Plugins/TouchEditor/Source/TouchInterfaceDesigner/Private/Settings/TouchInterfaceDesignerDeviceProfile.cpp:26-100 | after start-up from an empty registry, any device name's lookup meets OnScreenSizeButtonClicked's requirement |
| TouchDesignerViewport.Generic169Width | Plugins/TouchEditor/Source/TouchInterfaceDesigner/Private/Viewport/STouchInterfaceDesignerViewport.cpp:1539 | the 16:9 profile gives a 1920-wide designer |
| TouchDesignerViewport.ScreenSizeFor | Plugins/TouchEditor/Source/TouchInterfaceDesigner/Private/Viewport/STouchInterfaceDesignerViewport.cpp:1534-1546 | a registered profile's width by 1080, else 1920 by 1080, sides exchanged in portrait |
| TouchDesignerViewport.ZoomedScale | Plugins/TouchEditor/Source/TouchInterfaceDesigner/Private/Viewport/STouchInterfaceDesignerViewport.cpp:688 | the zoom stays in [0.1, 2] and moves by a tenth of the wheel delta when that stays in range |
| TouchDesignerViewport.DesignerViewport.constructor | Plugins/TouchEditor/Source/TouchInterfaceDesigner/Private/Viewport/STouchInterfaceDesignerViewport.cpp:35-61 | a 1920 x 1080 landscape designer at zoom 1 showing the active opacity, with the Generic 16/9 profile and its scale factor |
| TouchDesignerViewport.DesignerViewport.OnMouseWheel | Plugins/TouchEditor/Source/TouchInterfaceDesigner/Private/Viewport/STouchInterfaceDesignerViewport.cpp:683-700 | the zoom becomes ZoomedScale of the old zoom, which is remembered; nothing else of the model changes |
| TouchDesignerViewport.DesignerViewport.ChangeOpacity | Plugins/TouchEditor/Source/TouchInterfaceDesigner/Private/Viewport/STouchInterfaceDesignerViewport.cpp:1159-1164 | new opacities; the preview follows the current state |
| TouchDesignerViewport.DesignerViewport.ToggleOpacityState | Plugins/TouchEditor/Source/TouchInterfaceDesigner/Private/Viewport/STouchInterfaceDesignerViewport.cpp:1294-1298 | switches the preview between active and inactive opacity |
| TouchDesignerViewport.DesignerViewport.ToggleDashedOutline | Plugins/TouchEditor/Source/TouchInterfaceDesigner/Private/Viewport/STouchInterfaceDesignerViewport.cpp:1300-1303 | flips the dashed outline |
| TouchDesignerViewport.DesignerViewport.ToggleOrientation | Plugins/TouchEditor/Source/TouchInterfaceDesigner/Private/Viewport/STouchInterfaceDesignerViewport.cpp:1305-1324 | exchanges the sides and flips the orientation |
| TouchDesignerViewport.DesignerViewport.OnScreenSizeButtonClicked | Plugins/TouchEditor/Source/TouchInterfaceDesigner/Private/Viewport/STouchInterfaceDesignerViewport.cpp:1526-1566 | leaves custom mode, takes ScreenSizeFor the profile, keeps the old profile when the name is unknown, and recomputes the scale factor |
| TouchDesignerViewport.DesignerViewport.UseCustomSize | Plugins/TouchEditor/Source/TouchInterfaceDesigner/Private/Viewport/STouchInterfaceDesignerViewport.cpp:1621-1631 | enters custom mode with the custom size, oriented, and recomputes the scale factor |
| TouchDesignerViewport.DesignerViewport.SetCustomWidth | Plugins/TouchEditor/Source/TouchInterfaceDesigner/Private/Viewport/STouchInterfaceDesignerViewport.cpp:1649-1653 | stores the width and resizes the designer to the custom size |
| TouchDesignerViewport.DesignerViewport.SetCustomHeight | Plugins/TouchEditor/Source/TouchInterfaceDesigner/Private/Viewport/STouchInterfaceDesignerViewport.cpp:1655-1659 | stores the height and resizes the designer to the custom size |
| TouchDesignerViewport.DesignerViewport.UpdateCustomScreenSize | Plugins/TouchEditor/Source/TouchInterfaceDesigner/Private/Viewport/STouchInterfaceDesignerViewport.cpp:1661-1669 | the designer takes the custom size, oriented, and its scale factor |
| TouchInterface.Lerp | Plugins/TouchEditor/Source/TouchInterface/Private/TouchInterface/STouchInterface.cpp:1291 | alpha 0 gives the start, alpha 1 the end |
| TouchInterface.LerpBetween | Plugins/TouchEditor/Source/TouchInterface/Private/TouchInterface/STouchInterface.cpp:1291 | with alpha in [0, 1] the result lies between the two ends |
| TouchInterface.BaseOpacityIff | Plugins/TouchEditor/Source/TouchInterface/Private/TouchInterface/STouchInterface.cpp:1398-1401 | the base opacity is the active one iff the state is Active or CountingDownToInactive, the inactive one otherwise |
| TouchInterface.ActiveControlsActivate | Plugins/TouchEditor/Source/TouchInterface/Private/TouchInterface/STouchInterface.cpp:1295-1308 | any active control makes the state Active; true is announced only on the first active frame |
| TouchInterface.ActiveStartsCountdown | Plugins/TouchEditor/Source/TouchInterface/Private/TouchInterface/STouchInterface.cpp:1332-1339 | Active with no active control starts the countdown at TimeUntilDeactivated |
| TouchInterface.DeactivationExpiry | Plugins/TouchEditor/Source/TouchInterface/Private/TouchInterface/STouchInterface.cpp:1341-1363 | at expiry: CountingDownToReset with TimeUntilReset when that is positive, else Inactive announcing false; before it only the countdown moves |
| TouchInterface.ResetExpiry | Plugins/TouchEditor/Source/TouchInterface/Private/TouchInterface/STouchInterface.cpp:1365-1386 | at expiry the top-level controls are reset and the state becomes Inactive, announcing false |
| TouchInterface.StartupSequence | Plugins/TouchEditor/Source/TouchInterface/Private/TouchInterface/STouchInterface.cpp:1284-1287 | WaitForStart moves to CountingDownToStart with StartupDelay, the opacity is 0 meanwhile, and expiry makes the interface Inactive |
| TouchInterface.OpacityApproachesBase | Plugins/TouchEditor/Source/TouchInterface/Private/TouchInterface/STouchInterface.cpp:1288-1292 | outside the startup states a frame of at most 1/3 s keeps the opacity between the old value and the base, and a 1/3 s frame reaches the base |
| TouchInterface.InactiveIsStable | Plugins/TouchEditor/Source/TouchInterface/Private/TouchInterface/STouchInterface.cpp:1388-1389 | Inactive stays Inactive, silently, without an active control |
| TouchInterface.Range | Plugins/TouchEditor/Source/TouchInterface/Private/TouchInterface/STouchInterface.cpp:323-344 | the indices from i up to n, each once |
| TouchInterface.RunEnd | Plugins/TouchEditor/Source/TouchInterface/Private/TouchInterface/STouchInterface.cpp:325-334 | the end of the run of listeners of the claimer's priority |
| TouchInterface.FirstClaim | Plugins/TouchEditor/Source/TouchInterface/Private/TouchInterface/STouchInterface.cpp:336-342 | the first listener from i on that claims the touch |
| TouchInterface.ReceiversAfterClaim | Plugins/TouchEditor/Source/TouchInterface/Private/TouchInterface/STouchInterface.cpp:325-334 | after a claim only the unbroken run of equal-priority listeners receives the touch |
| TouchInterface.ReceiversBeforeClaim | Plugins/TouchEditor/Source/TouchInterface/Private/TouchInterface/STouchInterface.cpp:336-343 | before a claim every listener up to and including the claimer receives the touch |
| TouchInterface.DispatchSpec | Plugins/TouchEditor/Source/TouchInterface/Private/TouchInterface/STouchInterface.cpp:319-345 | with no claim every listener receives the touch; otherwise exactly those up to the first claimer and then the run of its priority |
| TouchInterface.LastRegion | Plugins/TouchEditor/Source/TouchInterface/Private/TouchInterface/STouchInterface.cpp:288-291 | the last touch region under the finger |
| TouchInterface.PressedButtonsSpec | Plugins/TouchEditor/Source/TouchInterface/Private/TouchInterface/STouchInterface.cpp:292-300 | every control under the finger that is not a touch region is pressed, and no other |
| TouchInterface.BlocksRegionSpec | Plugins/TouchEditor/Source/TouchInterface/Private/TouchInterface/STouchInterface.cpp:295-298 | the touch region is blocked iff a pressed control's OnPress answered true |
| TouchInterface.PressedSpec | Plugins/TouchEditor/Source/TouchInterface/Private/TouchInterface/STouchInterface.cpp:284-309 | a touch presses the controls under the finger, and the last touch region under it only when none of them blocks touch regions |
| TouchInterface.TopLevel | Plugins/TouchEditor/Source/TouchInterface/Private/TouchInterface/STouchInterface.cpp:1370-1376 | the widgets that are not children, each once |
| TouchInterface.RegistrationRoundTrip | Plugins/TouchEditor/Source/TouchInterface/Private/TouchInterface/STouchInterface.cpp:604-623 | registering keeps the list duplicate-free, and unregistering a fresh registration restores it |
| TouchInterface.STouchInterface.constructor | Plugins/TouchEditor/Source/TouchInterface/Private/TouchInterface/STouchInterface.cpp:44-85 | the setup's timing; Inactive, or WaitForStart when StartupDelay is positive; the inactive opacity; visible and unblocked, with no delegate fired yet |
| TouchInterface.STouchInterface.GetBaseOpacity | Plugins/TouchEditor/Source/TouchInterface/Private/TouchInterface/STouchInterface.cpp:1398-1401 | the base opacity of the current state |
| TouchInterface.STouchInterface.SetWidgetOpacity | Plugins/TouchEditor/Source/TouchInterface/Private/TouchInterface/STouchInterface.cpp:1282-1396 | one opacity step and one state-machine step; the announcement recorded; a reset resets every top-level control |
| TouchInterface.STouchInterface.ResetTopLevel | Plugins/TouchEditor/Source/TouchInterface/Private/TouchInterface/STouchInterface.cpp:1370-1376 | resets exactly the top-level widgets, in order |
| TouchInterface.STouchInterface.SetWidgetVisibility | Plugins/TouchEditor/Source/TouchInterface/Private/TouchInterface/STouchInterface.cpp:729-765 | with a fade the opacity jumps to the base (or 0) and the Slate visibility is kept; without one the opacity is kept and the visibility follows; the flags are set, and OnVisibilityStateChanged fires once with the new visibility |
| TouchInterface.STouchInterface.RegisterTouchInputComponent | Plugins/TouchEditor/Source/TouchInterface/Private/TouchInterface/STouchInterface.cpp:604-612 | added, returning true, iff not yet registered |
| TouchInterface.STouchInterface.UnregisterTouchInputComponent | Plugins/TouchEditor/Source/TouchInterface/Private/TouchInterface/STouchInterface.cpp:614-623 | removed, returning true, iff registered |
| TouchInterface.STouchInterface.SetTouchInputComponentList | Plugins/TouchEditor/Source/TouchInterface/Private/TouchInterface/STouchInterface.cpp:645-649 | the list is replaced |
| TouchInterface.STouchInterface.RegisterShapeManagerComponent | Plugins/TouchEditor/Source/TouchInterface/Private/TouchInterface/STouchInterface.cpp:625-633 | added, returning true, iff not yet registered |
| TouchInterface.STouchInterface.UnregisterShapeManagerComponent | Plugins/TouchEditor/Source/TouchInterface/Private/TouchInterface/STouchInterface.cpp:635-643 | removed, returning true, iff registered |
| TouchInterface.STouchInterface.OnTouchStarted | Plugins/TouchEditor/Source/TouchInterface/Private/TouchInterface/STouchInterface.cpp:262-356 | unless input is blocked the PressedControls are pressed and counted; a press shows the active opacity; with nothing pressed and a recognizer on, the listeners receive the touch as DispatchSpec says |
| TouchInterface.STouchInterface.PressControls | Plugins/TouchEditor/Source/TouchInterface/Private/TouchInterface/STouchInterface.cpp:284-309 | the loop computes PressedControls |
| TouchInterface.STouchInterface.DispatchToListeners | Plugins/TouchEditor/Source/TouchInterface/Private/TouchInterface/STouchInterface.cpp:321-344 | the loop computes the receivers of DispatchSpec |
| TouchInterface.DispatchOrder | Plugins/TouchEditor/Source/TouchInterface/Private/TouchInterface/STouchInterface.cpp:321-344 | the receivers are exactly those of the dispatch rule: every listener until one claims the touch, then only listeners of the same priority |
| VirtualControlWidget.AlignAxis | Plugins/TouchEditor/Source/TouchInterface/Private/TouchInterface/SVirtualControl.cpp:490-502 | a box no larger than the screen ends inside it, at the nearest position |
| VirtualControlWidget.AlignBoxIntoScreen | Plugins/TouchEditor/Source/TouchInterface/Private/TouchInterface/SVirtualControl.cpp:481-517 | a box larger than the screen is left alone; otherwise it ends inside the screen on both axes; a box already inside does not move |
| VirtualControlWidget.AlignBoxIntoScreenIdempotent | Plugins/TouchEditor/Source/TouchInterface/Private/TouchInterface/SVirtualControl.cpp:481-517 | aligning twice is aligning once |
| VirtualControlWidget.ResolveRelativePositionInverse | Plugins/TouchEditor/Source/TouchInterface/Private/TouchInterface/SVirtualControl.cpp:519-523 | dividing by a non-zero size gives the normalized position back |
| VirtualControlWidget.ResolveRelativePositionInside | Plugins/TouchEditor/Source/TouchInterface/Private/TouchInterface/SVirtualControl.cpp:519-523 | a normalized position in the unit square resolves inside the box |
| VirtualControlWidget.SVirtualControl.constructor | Plugins/TouchEditor/Source/TouchInterface/Private/TouchInterface/SVirtualControl.cpp:24-42 | released, no captured pointer, a refresh due, landscape, no children |
| VirtualControlWidget.SVirtualControl.IsInsideEdges | Plugins/TouchEditor/Source/TouchInterface/Private/TouchInterface/SVirtualControl.cpp:219-240 | a captured widget is never hit; the square test is inclusive; the circle's rim is a hit |
| VirtualControlWidget.SVirtualControl.OnPress | Plugins/TouchEditor/Source/TouchInterface/Private/TouchInterface/SVirtualControl.cpp:53-69 | pressed, the pointer captured, bBlockTouchRegion returned; a recentring control moves to the touch |
| VirtualControlWidget.SVirtualControl.OnRelease | Plugins/TouchEditor/Source/TouchInterface/Private/TouchInterface/SVirtualControl.cpp:79-90 | released, no captured pointer, the press duration moved to LastElapsedTime and reset |
| VirtualControlWidget.SVirtualControl.OnTick | Plugins/TouchEditor/Source/TouchInterface/Private/TouchInterface/SVirtualControl.cpp:92-146 | a child is untouched; otherwise the time is recorded, ElapsedTime grows only while pressed, and a due refresh places the box from the orientation's centre and aligns it into the canvas |
| VirtualControlWidget.SVirtualControl.Advance | Plugins/TouchEditor/Source/TouchInterface/Private/TouchInterface/SVirtualControl.cpp:100-114 | the time, the press duration, the refresh flag, the scale and the orientation |
| VirtualControlWidget.SVirtualControl.Refresh | Plugins/TouchEditor/Source/TouchInterface/Private/TouchInterface/SVirtualControl.cpp:116-145 | corrected values from the centre, the box aligned into the canvas, no refresh pending |
| VirtualControlWidget.SVirtualControl.CalculateCorrectedValues | Plugins/TouchEditor/Source/TouchInterface/Private/TouchInterface/SVirtualControl.cpp:358-386 | a child's offset is scaled; the centre is resolved then offset; the sizes of the control's shape are scaled |
| VirtualControlWidget.SVirtualControl.Recenter | Plugins/TouchEditor/Source/TouchInterface/Private/TouchInterface/SVirtualControl.cpp:388-391 | the centre moves to the touch |
| VirtualControlWidget.SVirtualControl.Reset | Plugins/TouchEditor/Source/TouchInterface/Private/TouchInterface/SVirtualControl.cpp:296-300 | back to the centre of the last refresh |
| VirtualControlWidget.SVirtualControl.ResetChild | Plugins/TouchEditor/Source/TouchInterface/Private/TouchInterface/SVirtualControl.cpp:312-317 | the parent's position plus the corrected offset |
| VirtualControlWidget.SVirtualControl.RecenterChild | Plugins/TouchEditor/Source/TouchInterface/Private/TouchInterface/SVirtualControl.cpp:414-421 | follows the parent only when it moves with it |
| VirtualControlWidget.SVirtualControl.AddChild | Plugins/TouchEditor/Source/TouchInterface/Private/TouchInterface/SVirtualControl.cpp:327-335 | refuses null, appends anything else |
| VirtualControlWidget.SVirtualControl.RemoveChild | Plugins/TouchEditor/Source/TouchInterface/Private/TouchInterface/SVirtualControl.cpp:337-346 | refuses a widget that is not a child, removes every occurrence otherwise |
| VirtualControlWidget.SVirtualControl.SetLocalPosition | Plugins/TouchEditor/Source/TouchInterface/Private/TouchInterface/SVirtualControl.cpp:423-434 | as written, the position is stored unresolved |
| VirtualControlWidget.SVirtualControl.SetLocalPositionResolved | Plugins/TouchEditor/Source/TouchInterface/Private/TouchInterface/SVirtualControl.cpp:423-434 | corrected, a normalized position is resolved against the parent's size |
| VirtualControlWidget.LocalPosition | Plugins/TouchEditor/Source/TouchInterface/Private/TouchInterface/SVirtualControl.cpp:423-430 | the intended centre: resolved when normalized, the position itself otherwise |
| VirtualControlWidget.SetLocalPositionIgnoresNormalization | Plugins/TouchEditor/Source/TouchInterface/Private/TouchInterface/SVirtualControl.cpp:430 | (0.5, 0.5) normalized on a 1920 x 1080 canvas should be (960, 540), not (0.5, 0.5) |
| SubsystemTypes.DefaultInit | Plugins/TouchEditor/Source/TouchInterface/Public/Helpers/TouchInterfaceSubsystem.h:43-52 | visible, nothing blocked, no configuration loaded, indices 0 |
| SubsystemTypes.WithBase | Plugins/TouchEditor/Source/TouchInterface/Public/Helpers/TouchInterfaceSubsystem.h:131-142 | the default control carries the description's shared fields |
| SubsystemTypes.ButtonToControl | Plugins/TouchEditor/Source/TouchInterface/Public/Helpers/TouchInterfaceSubsystem.h:131-148 | a Button control without links, carrying the button's fields |
| SubsystemTypes.ButtonRoundTrip | Plugins/TouchEditor/Source/TouchInterface/Public/Helpers/TouchInterfaceSubsystem.h:131-177 | a button description survives the trip through FVirtualControl |
| SubsystemTypes.ButtonControlRoundTrip | Plugins/TouchEditor/Source/TouchInterface/Public/Helpers/TouchInterfaceSubsystem.h:131-177 | a link-free button control with default joystick and touch-region data survives the opposite trip |
| SubsystemTypes.JoystickToControl | Plugins/TouchEditor/Source/TouchInterface/Public/Helpers/TouchInterfaceSubsystem.h:270-301 | corrected, a Joystick control without links, carrying the joystick's fields |
| SubsystemTypes.JoystickBecomesButton | Plugins/TouchEditor/Source/TouchInterface/Public/Helpers/TouchInterfaceSubsystem.h:282 | as written, a joystick description becomes a Button control, its data otherwise intact |
| SubsystemTypes.JoystickRoundTrip | Plugins/TouchEditor/Source/TouchInterface/Public/Helpers/TouchInterfaceSubsystem.h:270-350 | a joystick description survives the trip, as a Joystick control |
| SubsystemTypes.TouchRegionToControl | Plugins/TouchEditor/Source/TouchInterface/Public/Helpers/TouchInterfaceSubsystem.h:376-389 | a TouchRegion control with the name, centres, interaction size, keys, the action as JoystickAction and the sensibility as InputScale |
| SubsystemTypes.TouchRegionRoundTrip | Plugins/TouchEditor/Source/TouchInterface/Public/Helpers/TouchInterfaceSubsystem.h:376-410 | a touch region survives the trip in every field it carries; the shared fields it lacks come back as defaults |
| VirtualControlTypes.AcceptIff | Plugins/TouchEditor/Source/TouchInterface/Public/Classes/VirtualControlSetup.h:72-89 | Accept holds iff the type is not None and carries every requested flag |
| VirtualControlTypes.AllSetIff | Plugins/TouchEditor/Source/TouchInterface/Public/Classes/VirtualControlSetup.h:75-85 | the loop accepts iff every requested flag is set |
| VirtualControlTypes.AcceptEdgeCases | Plugins/TouchEditor/Source/TouchInterface/Public/Classes/VirtualControlSetup.h:72-89 | testing for None always fails; an empty test accepts any non-None type |
| VirtualControlTypes.VisualLayerOf | Plugins/TouchEditor/Source/TouchInterface/Public/Classes/VirtualControlSetup.h:100-134 | the layer type and brush-size flag are kept, the offset is zero, and the image size becomes the brush size when asked |
| VirtualControlTypes.VirtualControl.ClearLinkData | Plugins/TouchEditor/Source/TouchInterface/Public/Classes/VirtualControlSetup.h:329-336 | neither child nor parent afterwards; nothing else changes |
| VirtualControlTypes.DefaultControl | Plugins/TouchEditor/Source/TouchInterface/Public/Classes/VirtualControlSetup.h:339-373 | a 60 x 60 button named NewControl at the screen centre, unlinked |
| VirtualControlTypes.ControlOfType | Plugins/TouchEditor/Source/TouchInterface/Public/Classes/VirtualControlSetup.h:376-431 | per type: the name, visual and interaction sizes, radius and input scale |
| VirtualControlTypes.ClearLinkDataFixpoints | Plugins/TouchEditor/Source/TouchInterface/Public/Classes/VirtualControlSetup.h:329-431 | clearing twice is clearing once, and a freshly built control has nothing to clear |
| VirtualControlSetup.NameExistsIff | Plugins/TouchEditor/Source/TouchInterface/Private/Classes/VirtualControlSetup.cpp:96-107 | a name exists iff some control has it, ignoring case |
| VirtualControlSetup.UniqueIdFromSpec | Plugins/TouchEditor/Source/TouchInterface/Private/Classes/VirtualControlSetup.cpp:56-67 | the search from i returns the first free index from i on, or -1 |
| VirtualControlSetup.UniqueIdSpec | Plugins/TouchEditor/Source/TouchInterface/Private/Classes/VirtualControlSetup.cpp:36-70 | the smallest free index in 0..99, or -1 when all 100 are taken |
| VirtualControlSetup.UniqueNameIsFresh | Plugins/TouchEditor/Source/TouchInterface/Private/Classes/VirtualControlSetup.cpp:72-94 | when an index was found the unique name is unused |
| VirtualControlSetup.IndexByName | Plugins/TouchEditor/Source/TouchInterface/Private/Classes/VirtualControlSetup.cpp:134-145 | the first control with the name, or -1 iff none has it |
| VirtualControlSetup.IndexByNameIsFirst | Plugins/TouchEditor/Source/TouchInterface/Private/Classes/VirtualControlSetup.cpp:134-145 | the first match is the index reported |
| VirtualControlSetup.LastIndex | Plugins/TouchEditor/Source/TouchInterface/Private/Classes/VirtualControlSetup.cpp:31-34 | the last index, 0 for an empty list |
| VirtualControlSetup.VirtualControlSetup.constructor | Plugins/TouchEditor/Source/TouchInterface/Private/Classes/VirtualControlSetup.cpp:7-23 | no controls; opacities 1 and 0.1; delays 0.5, 2, 0 and 0 |
| VirtualControlSetup.VirtualControlSetup.GetSelectedControlType | Plugins/TouchEditor/Source/TouchInterface/Private/Classes/VirtualControlSetup.cpp:26-29 | the selected control's type |
| VirtualControlSetup.VirtualControlSetup.GetLastIndex | Plugins/TouchEditor/Source/TouchInterface/Private/Classes/VirtualControlSetup.cpp:31-34 | a valid index whenever there is a control |
| VirtualControlSetup.VirtualControlSetup.DoesThisNameExistInControl | Plugins/TouchEditor/Source/TouchInterface/Private/Classes/VirtualControlSetup.cpp:96-107 | true iff the name exists |
| VirtualControlSetup.VirtualControlSetup.GetUniqueId | Plugins/TouchEditor/Source/TouchInterface/Private/Classes/VirtualControlSetup.cpp:36-70 | the loop computes UniqueId; a found index is free |
| VirtualControlSetup.VirtualControlSetup.GetUniqueName | Plugins/TouchEditor/Source/TouchInterface/Private/Classes/VirtualControlSetup.cpp:72-94 | the generated name, unused whenever an index was found |
| VirtualControlSetup.VirtualControlSetup.SelectLastControl | Plugins/TouchEditor/Source/TouchInterface/Private/Classes/VirtualControlSetup.cpp:109-114 | selects and returns the last index |
| VirtualControlSetup.VirtualControlSetup.GetSelectedControl | Plugins/TouchEditor/Source/TouchInterface/Private/Classes/VirtualControlSetup.cpp:116-124 | a default control for a negative index, else one of the controls |
| VirtualControlSetup.VirtualControlSetup.GetControlIndexByName | Plugins/TouchEditor/Source/TouchInterface/Private/Classes/VirtualControlSetup.cpp:134-145 | the loop computes IndexByName |
| TouchInterfaceSubsystem.SortedByNegPriority | Plugins/TouchEditor/Source/TouchInterface/Private/Helpers/TouchInterfaceSubsystem.cpp:43-46 | sorting by the comparator A.Priority > B.Priority leaves the list ordered by descending priority |
| TouchInterfaceSubsystem.AddedKeepsNoDuplicates | Plugins/TouchEditor/Source/TouchInterface/Private/Helpers/TouchInterfaceSubsystem.cpp:37-47 | adding a new listener and sorting keeps the list free of repeats |
| TouchInterfaceSubsystem.WithoutKeepsOrder | Plugins/TouchEditor/Source/TouchInterface/Private/Helpers/TouchInterfaceSubsystem.cpp:63 | removing a listener keeps the priority order |
| TouchInterfaceSubsystem.Subsystem.constructor | Plugins/TouchEditor/Source/TouchInterface/Private/Helpers/TouchInterfaceSubsystem.cpp:19-28 | no listener, no interface widget, not touch input |
| TouchInterfaceSubsystem.Subsystem.RegisterTouchManagerComponent | Plugins/TouchEditor/Source/TouchInterface/Private/Helpers/TouchInterfaceSubsystem.cpp:35-57 | a new listener joins the repeat-free, priority-ordered list, which is handed to the widget; true iff the listener is new and a widget exists |
| TouchInterfaceSubsystem.Subsystem.UnregisterTouchManagerComponent | Plugins/TouchEditor/Source/TouchInterface/Private/Helpers/TouchInterfaceSubsystem.cpp:59-68 | the listener leaves the list; the answer is the widget's own, false without a widget or for an unregistered listener |
| TouchInterfaceSubsystem.Subsystem.SetInputKey | Plugins/TouchEditor/Source/TouchInterface/Private/Helpers/TouchInterfaceSubsystem.cpp:210-218 | the widget's answer, false without one; only the axis keys are passed on |
| TouchInterfaceSubsystem.Subsystem.ConvertThroughInterface | Plugins/TouchEditor/Source/TouchInterface/Private/Helpers/TouchInterfaceSubsystem.cpp:492-514 | the widget's conversion and true, or a zero vector and false without a widget |
| TouchInterfaceSubsystem.Subsystem.HandleBeganTouchEvent | Plugins/TouchEditor/Source/TouchInterface/Private/Helpers/TouchInterfaceSubsystem.cpp:554-558 | any finger marks touch input |
| TouchInterfaceSubsystem.Subsystem.HandleEndedTouchEvent | Plugins/TouchEditor/Source/TouchInterface/Private/Helpers/TouchInterfaceSubsystem.cpp:565-573 | only finger 0 ending clears the touch-input flag |
| TouchInterfaceSubsystem.Subsystem.HandleOnAnyKeyPressed | Plugins/TouchEditor/Source/TouchInterface/Private/Helpers/TouchInterfaceSubsystem.cpp:648-656 | a key that is not touch input hides and blocks the widget |
| TouchInterfaceSubsystem.Subsystem.HandleOnTouch | Plugins/TouchEditor/Source/TouchInterface/Private/Helpers/TouchInterfaceSubsystem.cpp:658-663 | a touch shows and unblocks the widget |
| TouchInterfaceSubsystem.Subsystem.HandleOnControllerConnexionChange | Plugins/TouchEditor/Source/TouchInterface/Private/Helpers/TouchInterfaceSubsystem.cpp:587-610 | a connected gamepad hides and blocks the widget, a disconnected one shows it, other states change nothing |
| VirtualControlDesignerEditor.WithCenter | Plugins/TouchEditor/Source/TouchInterfaceDesigner/Private/Editor/VirtualControlDesignerEditor.cpp:855-862 | only the current orientation's centre changes |
| VirtualControlDesignerEditor.NewControl | Plugins/TouchEditor/Source/TouchInterfaceDesigner/Private/Editor/VirtualControlDesignerEditor.cpp:447-529 | the unique name and the type, unlinked, placed in the current orientation, with one background layer for a button, background and thumb for a joystick, none for a touch region |
| VirtualControlDesignerEditor.RemovedAt | Plugins/TouchEditor/Source/TouchInterfaceDesigner/Private/Editor/VirtualControlDesignerEditor.cpp:653 | the list without the element at i, order kept |
| VirtualControlDesignerEditor.PortraitFromLandscape | Plugins/TouchEditor/Source/TouchInterfaceDesigner/Private/Editor/VirtualControlDesignerEditor.cpp:923-927 | every portrait centre becomes the landscape centre, nothing else changes |
| VirtualControlDesignerEditor.VirtualControlDesignerEditor.constructor | Plugins/TouchEditor/Source/TouchInterfaceDesigner/Private/Editor/VirtualControlDesignerEditor.cpp:70-82 | landscape, nothing copied, nothing selected |
| VirtualControlDesignerEditor.VirtualControlDesignerEditor.SelectControl | Plugins/TouchEditor/Source/TouchInterfaceDesigner/Private/Editor/VirtualControlDesignerEditor.cpp:557-574 | selects the first control with the name; nothing changes when none has it |
| VirtualControlDesignerEditor.VirtualControlDesignerEditor.UnselectControl | Plugins/TouchEditor/Source/TouchInterfaceDesigner/Private/Editor/VirtualControlDesignerEditor.cpp:576-586 | no index and no name |
| VirtualControlDesignerEditor.VirtualControlDesignerEditor.AddNewControl | Plugins/TouchEditor/Source/TouchInterfaceDesigner/Private/Editor/VirtualControlDesignerEditor.cpp:447-529 | appends NewControl under the unique name and selects it |
| VirtualControlDesignerEditor.VirtualControlDesignerEditor.AddNewControlFromCopyCache | Plugins/TouchEditor/Source/TouchInterfaceDesigner/Private/Editor/VirtualControlDesignerEditor.cpp:531-555 | with a copy available, appends it renamed and unlinked and selects it; otherwise nothing changes |
| VirtualControlDesignerEditor.VirtualControlDesignerEditor.PasteCopiedControl | Plugins/TouchEditor/Source/TouchInterfaceDesigner/Private/Editor/VirtualControlDesignerEditor.cpp:763-786 | pastes the copy at the cursor and uses the copy up |
| VirtualControlDesignerEditor.VirtualControlDesignerEditor.CopySelectedControlData | Plugins/TouchEditor/Source/TouchInterfaceDesigner/Private/Editor/VirtualControlDesignerEditor.cpp:1153-1164 | a copy is available iff a name is selected, and then it is the selected control |
| VirtualControlDesignerEditor.VirtualControlDesignerEditor.ClearCopyCache | Plugins/TouchEditor/Source/TouchInterfaceDesigner/Private/Editor/VirtualControlDesignerEditor.cpp:1166-1170 | nothing copied afterwards |
| VirtualControlDesignerEditor.VirtualControlDesignerEditor.DuplicateSelected | Plugins/TouchEditor/Source/TouchInterfaceDesigner/Private/Editor/VirtualControlDesignerEditor.cpp:788-805 | appends the selected control moved by (0.05, 0.05), renamed and unlinked; the copy stays available |
| VirtualControlDesignerEditor.VirtualControlDesignerEditor.CutSelected | Plugins/TouchEditor/Source/TouchInterfaceDesigner/Private/Editor/VirtualControlDesignerEditor.cpp:752-756 | copies the selected control and removes it as RemoveSelected does; nothing changes without a selection |
| VirtualControlDesignerEditor.VirtualControlDesignerEditor.NotifyOrientationChanged | Plugins/TouchEditor/Source/TouchInterfaceDesigner/Private/Editor/VirtualControlDesignerEditor.cpp:893-902 | records the orientation and drops the copy |
| VirtualControlDesignerEditor.VirtualControlDesignerEditor.NotifyControlPositionChanged | Plugins/TouchEditor/Source/TouchInterfaceDesigner/Private/Editor/VirtualControlDesignerEditor.cpp:849-872 | the named control's centre in the current orientation, and a child's offset, change; nothing else |
| VirtualControlDesignerEditor.VirtualControlDesignerEditor.HandleOnCalculatePortraitPosition | Plugins/TouchEditor/Source/TouchInterfaceDesigner/Private/Editor/VirtualControlDesignerEditor.cpp:911-944 | with at least one control every portrait centre becomes the landscape centre; with none nothing happens |
| VirtualControlDesignerEditor.VirtualControlDesignerEditor.VerifyTextCommitted | Plugins/TouchEditor/Source/TouchInterfaceDesigner/Private/Editor/VirtualControlDesignerEditor.cpp:957-976 | as written: accepted iff non-empty and unequal as text to every name; the message otherwise |
| VirtualControlDesignerEditor.VirtualControlDesignerEditor.VerifyControlName | Plugins/TouchEditor/Source/TouchInterfaceDesigner/Private/Editor/VirtualControlDesignerEditor.cpp:957-976 | corrected: accepted iff non-empty and unequal as an FName to every name |
| VirtualControlDesignerEditor.VirtualControlDesignerEditor.LinkControl | Plugins/TouchEditor/Source/TouchInterfaceDesigner/Private/Editor/VirtualControlDesignerEditor.cpp:662-686 | the child gets the link fields and the parent lists it |
| VirtualControlDesignerEditor.VirtualControlDesignerEditor.UnlinkControl | Plugins/TouchEditor/Source/TouchInterfaceDesigner/Private/Editor/VirtualControlDesignerEditor.cpp:688-732 | the child is cleared and placed where it shows, and its parent drops it |
| VirtualControlDesignerEditor.VirtualControlDesignerEditor.UnlinkAllControl | Plugins/TouchEditor/Source/TouchInterfaceDesigner/Private/Editor/VirtualControlDesignerEditor.cpp:734-750 | every child the parent listed is unlinked |
| VirtualControlDesignerEditor.VirtualControlDesignerEditor.UnlinkEachControl | Plugins/TouchEditor/Source/TouchInterfaceDesigner/Private/Editor/VirtualControlDesignerEditor.cpp:741-748 | UnlinkControl for each listed name, in order |
| VirtualControlDesignerEditor.VirtualControlDesignerEditor.ChangeControlName | Plugins/TouchEditor/Source/TouchInterfaceDesigner/Private/Editor/VirtualControlDesignerEditor.cpp:601-635 | the control is renamed, its parent lists the new name, its children name the new parent |
| VirtualControlDesignerEditor.VirtualControlDesignerEditor.SwapNameInParent | Plugins/TouchEditor/Source/TouchInterfaceDesigner/Private/Editor/VirtualControlDesignerEditor.cpp:608-613 | the parent drops the old name and lists the new one |
| VirtualControlDesignerEditor.VirtualControlDesignerEditor.SetChildrenParentName | Plugins/TouchEditor/Source/TouchInterfaceDesigner/Private/Editor/VirtualControlDesignerEditor.cpp:616-623 | each listed child names the new parent |
| VirtualControlDesignerEditor.VirtualControlDesignerEditor.RemoveControl | Plugins/TouchEditor/Source/TouchInterfaceDesigner/Private/Editor/VirtualControlDesignerEditor.cpp:637-660 | removes the first control with the name and selects the new last index; nothing changes when none has it |
| VirtualControlDesignerEditor.VirtualControlDesignerEditor.RemoveFirstNamed | Plugins/TouchEditor/Source/TouchInterfaceDesigner/Private/Editor/VirtualControlDesignerEditor.cpp:642-653 | removes the first control with the name and reports its index, or -1 |
| VirtualControlDesignerEditor.VirtualControlDesignerEditor.UnlinkForRemoval | Plugins/TouchEditor/Source/TouchInterfaceDesigner/Private/Editor/VirtualControlDesignerEditor.cpp:813-820 | corrected, as the Findings say: a parent unlinks all its children, and a child unlinks itself, both for a control that is both |
| VirtualControlDesignerEditor.VirtualControlDesignerEditor.RemoveSelected | Plugins/TouchEditor/Source/TouchInterfaceDesigner/Private/Editor/VirtualControlDesignerEditor.cpp:807-847 | with a name selected: unlinks (with the corrected two-step unlinking of the Findings), removes the first control with the name and clears the index |
| VirtualControlDesignerEditor.AppendDetachedKeepsConsistent | Plugins/TouchEditor/Source/TouchInterfaceDesigner/Private/Editor/VirtualControlDesignerEditor.cpp:531-555 | a detached control with an unused name keeps the link graph consistent |
| VirtualControlDesignerEditor.AddKeepsConsistent | Plugins/TouchEditor/Source/TouchInterfaceDesigner/Private/Editor/VirtualControlDesignerEditor.cpp:447-529 | while a unique id is left the new name is unused and the list stays consistent |
| VirtualControlDesignerEditor.PasteKeepsConsistent | Plugins/TouchEditor/Source/TouchInterfaceDesigner/Private/Editor/VirtualControlDesignerEditor.cpp:531-555 | while a unique id is left the pasted copy is unlinked, its name unused and the list consistent |
| VirtualControlDesignerEditor.PortraitFromLandscapeEffect | Plugins/TouchEditor/Source/TouchInterfaceDesigner/Private/Editor/VirtualControlDesignerEditor.cpp:923-927 | portrait generation keeps the link graph and is idempotent |
| VirtualControlDesignerEditor.RemovedAtLookup | Plugins/TouchEditor/Source/TouchInterfaceDesigner/Private/Editor/VirtualControlDesignerEditor.cpp:653 | after a RemoveAt a name's index moves down past the removed control |
| VirtualControlDesignerEditor.RemovedAtKeepsConsistent | Plugins/TouchEditor/Source/TouchInterfaceDesigner/Private/Editor/VirtualControlDesignerEditor.cpp:653 | removing a control nobody lists keeps the list consistent |
| VirtualControlDesignerEditor.RemovedAtLinkedChild | Plugins/TouchEditor/Source/TouchInterfaceDesigner/Private/Editor/VirtualControlDesignerEditor.cpp:653 | a listed child of a remaining control stays linked after the removal |
| VirtualControlDesignerEditor.RemovedAtKeepsLink | Plugins/TouchEditor/Source/TouchInterfaceDesigner/Private/Editor/VirtualControlDesignerEditor.cpp:653 | a parent-child link that does not name the removed control still holds, at the shifted indices, after the removal |
| VirtualControlDesignerEditor.RemovalKeepsConsistent | Plugins/TouchEditor/Source/TouchInterfaceDesigner/Private/Editor/VirtualControlDesignerEditor.cpp:807-847 | with the corrected unlinking of the Findings, removing any selected control, a parent and child included, keeps the list consistent and leaves no control with the removed name |
| VirtualControlDesignerEditor.NestedChainConsistent | Plugins/TouchEditor/Source/TouchInterfaceDesigner/Private/Editor/VirtualControlDesignerEditor.cpp:601-635 | a chain whose middle control is both a child and a parent, the nesting ChangeControlName handles, is a consistent link graph |
| VirtualControlDesignerEditor.NestedRemovalAsWrittenLeavesListing | Plugins/TouchEditor/Source/TouchInterfaceDesigner/Private/Editor/VirtualControlDesignerEditor.cpp:813-820 | as written, removing the middle control of the chain A, B, C removes B but leaves A listing it, so the graph is no longer consistent |
| VirtualControlDesignerEditor.TextAcceptedAllowsDuplicate | Plugins/TouchEditor/Source/TouchInterfaceDesigner/Private/Editor/VirtualControlDesignerEditor.cpp:966 | as written, "jump" is accepted beside "Jump" and the rename leaves two equal FNames |
| VirtualControlDesignerEditor.AcceptableRenameKeepsNamesUnique | Plugins/TouchEditor/Source/TouchInterfaceDesigner/Private/Editor/VirtualControlDesignerEditor.cpp:957-976 | with the FName check a rename keeps names unique |
| ControlLinks.RemoveName | Plugins/TouchEditor/Source/TouchInterfaceDesigner/Private/Editor/VirtualControlDesignerEditor.cpp:720 | TArray::Remove drops every entry equal to the name as an FName, and nothing else |
| ControlLinks.RemoveNameAbsent | Plugins/TouchEditor/Source/TouchInterfaceDesigner/Private/Editor/VirtualControlDesignerEditor.cpp:720 | removing an absent name changes nothing |
| ControlLinks.RemoveNames | Plugins/TouchEditor/Source/TouchInterfaceDesigner/Private/Editor/VirtualControlDesignerEditor.cpp:741-744 | removing several names in turn keeps exactly the entries equal to none of them |
| ControlLinks.RemovedIsGone | Plugins/TouchEditor/Source/TouchInterfaceDesigner/Private/Editor/VirtualControlDesignerEditor.cpp:741-744 | a removed name is gone |
| ControlLinks.RemoveOwnNames | Plugins/TouchEditor/Source/TouchInterfaceDesigner/Private/Editor/VirtualControlDesignerEditor.cpp:740-744 | removing every listed name from the list empties it |
| ControlLinks.UniqueLookup | Plugins/TouchEditor/Source/TouchInterfaceDesigner/Private/Editor/VirtualControlDesignerEditor.cpp:664-677 | with unique names the control matching a name is the one the lookup finds |
| ControlLinks.Linked | Plugins/TouchEditor/Source/TouchInterfaceDesigner/Private/Editor/VirtualControlDesignerEditor.cpp:662-686 | linking keeps every control's name |
| ControlLinks.LinkedSpec | Plugins/TouchEditor/Source/TouchInterfaceDesigner/Private/Editor/VirtualControlDesignerEditor.cpp:664-677 | every control named as the child gets the link fields, every control named as the parent appends the child without removing an earlier entry, nothing else changes |
| ControlLinks.Unlinked | Plugins/TouchEditor/Source/TouchInterfaceDesigner/Private/Editor/VirtualControlDesignerEditor.cpp:688-732 | unlinking keeps every control's name |
| ControlLinks.ParentIndex | Plugins/TouchEditor/Source/TouchInterfaceDesigner/Private/Editor/VirtualControlDesignerEditor.cpp:714-724 | the first control named as the child's parent, or -1 |
| ControlLinks.UnlinkedAt | Plugins/TouchEditor/Source/TouchInterfaceDesigner/Private/Editor/VirtualControlDesignerEditor.cpp:692-724 | only the child's link fields and centre and its parent's Children change |
| ControlLinks.ListedOnlyByParent | Plugins/TouchEditor/Source/TouchInterfaceDesigner/Private/Editor/VirtualControlDesignerEditor.cpp:714-724 | in a consistent list only the parent lists a child |
| ControlLinks.UnlinkedChildren | Plugins/TouchEditor/Source/TouchInterfaceDesigner/Private/Editor/VirtualControlDesignerEditor.cpp:714-724 | unlinking removes the name from every Children list and nothing else |
| ControlLinks.UnlinkedLinkedChild | Plugins/TouchEditor/Source/TouchInterfaceDesigner/Private/Editor/VirtualControlDesignerEditor.cpp:688-732 | a name still listed after unlinking still points back to its parent |
| ControlLinks.UnlinkedEffect | Plugins/TouchEditor/Source/TouchInterfaceDesigner/Private/Editor/VirtualControlDesignerEditor.cpp:688-732 | unlinking removes the name from every Children list and keeps the list consistent |
| ControlLinks.UnlinkEach | Plugins/TouchEditor/Source/TouchInterfaceDesigner/Private/Editor/VirtualControlDesignerEditor.cpp:741-744 | unlinking each name in turn keeps every name |
| ControlLinks.UnlinkEachEffect | Plugins/TouchEditor/Source/TouchInterfaceDesigner/Private/Editor/VirtualControlDesignerEditor.cpp:741-744 | unlinking each name keeps the list consistent and lists none of the names |
| ControlLinks.UnlinkAllUpTo | Plugins/TouchEditor/Source/TouchInterfaceDesigner/Private/Editor/VirtualControlDesignerEditor.cpp:736-746 | the outer loop over a prefix keeps every name |
| ControlLinks.UnlinkAllUpToEffect | Plugins/TouchEditor/Source/TouchInterfaceDesigner/Private/Editor/VirtualControlDesignerEditor.cpp:736-746 | after the loop's prefix, each parent seen lists nothing and the list stays consistent |
| ControlLinks.UnlinkAllStep | Plugins/TouchEditor/Source/TouchInterfaceDesigner/Private/Editor/VirtualControlDesignerEditor.cpp:738-745 | one iteration of the outer loop empties the parent it reaches |
| ControlLinks.UnlinkAllEmptiesParent | Plugins/TouchEditor/Source/TouchInterfaceDesigner/Private/Editor/VirtualControlDesignerEditor.cpp:734-750 | UnlinkAllControl leaves the parent with no children and the list consistent |
| ControlLinks.UnlinkAllNoMatch | Plugins/TouchEditor/Source/TouchInterfaceDesigner/Private/Editor/VirtualControlDesignerEditor.cpp:736-746 | with no control of that name nothing changes |
| ControlLinks.UnlinkedNoNewChild | Plugins/TouchEditor/Source/TouchInterfaceDesigner/Private/Editor/VirtualControlDesignerEditor.cpp:692-711 | unlinking never makes a control a child |
| ControlLinks.UnlinkEachNoNewChild | Plugins/TouchEditor/Source/TouchInterfaceDesigner/Private/Editor/VirtualControlDesignerEditor.cpp:741-744 | nor does unlinking each name |
| ControlLinks.UnlinkAllUpToNoNewChild | Plugins/TouchEditor/Source/TouchInterfaceDesigner/Private/Editor/VirtualControlDesignerEditor.cpp:736-746 | nor does UnlinkAllControl's loop |
| ControlLinks.LinkedLinkedChild | Plugins/TouchEditor/Source/TouchInterfaceDesigner/Private/Editor/VirtualControlDesignerEditor.cpp:664-677 | a listed name still points back to its parent after linking an unlinked child |
| ControlLinks.LinkPreservesConsistent | Plugins/TouchEditor/Source/TouchInterfaceDesigner/Private/Editor/VirtualControlDesignerEditor.cpp:662-686 | linking two existing controls, the child unlinked, keeps the link graph consistent |
| ControlLinks.UnlinkedChildIsUnlisted | Plugins/TouchEditor/Source/TouchInterfaceDesigner/Private/Editor/VirtualControlDesignerEditor.cpp:662-732 | an unlinked control is listed by no parent |
| ControlLinks.UnlinkAfterLink | Plugins/TouchEditor/Source/TouchInterfaceDesigner/Private/Editor/VirtualControlDesignerEditor.cpp:662-732 | unlinking undoes linking, except the child now sits where the viewport placed it |
| ControlLinks.UnlinkedPlaced | Plugins/TouchEditor/Source/TouchInterfaceDesigner/Private/Editor/VirtualControlDesignerEditor.cpp:696-708 | only the child moves, to the viewport's position in the current orientation |
| ControlLinks.RemoveNameAppend | Plugins/TouchEditor/Source/TouchInterfaceDesigner/Private/Editor/VirtualControlDesignerEditor.cpp:675-720 | appending a new name and removing it restores the list |
| ControlLinks.SetParentNames | Plugins/TouchEditor/Source/TouchInterfaceDesigner/Private/Editor/VirtualControlDesignerEditor.cpp:616-623 | the children loop keeps every name |
| ControlLinks.SetParentNamesAt | Plugins/TouchEditor/Source/TouchInterfaceDesigner/Private/Editor/VirtualControlDesignerEditor.cpp:616-623 | exactly the controls the names find get the new ParentName |
| ControlLinks.SwapInParent | Plugins/TouchEditor/Source/TouchInterfaceDesigner/Private/Editor/VirtualControlDesignerEditor.cpp:608-613 | the parent-side edit keeps every name |
| ControlLinks.Renamed | Plugins/TouchEditor/Source/TouchInterfaceDesigner/Private/Editor/VirtualControlDesignerEditor.cpp:601-635 | the rename keeps the list's length |
| ControlLinks.RenamedAt | Plugins/TouchEditor/Source/TouchInterfaceDesigner/Private/Editor/VirtualControlDesignerEditor.cpp:601-635 | only the renamed control's name, its parent's Children and its children's ParentName change |
| ControlLinks.RenamedIs | Plugins/TouchEditor/Source/TouchInterfaceDesigner/Private/Editor/VirtualControlDesignerEditor.cpp:601-635 | the renamed control carries the new name and otherwise its old fields |
| ControlEditor.RenameKey | Plugins/TouchEditor/Source/TouchInterfaceDesigner/Private/Viewport/SVirtualControlEditor.cpp:511-517 | the entry moves from the old key to the new, every other entry stays |
| ControlEditor.RenameKeyBack | Plugins/TouchEditor/Source/TouchInterfaceDesigner/Private/Viewport/SVirtualControlEditor.cpp:511-517 | renaming to a free name and back restores the map |
| ControlEditor.AcceptLayer | Plugins/TouchEditor/Source/TouchInterfaceDesigner/Private/Viewport/SVirtualControlEditor.cpp:526-544 | the loop gives the same answer as FVisualLayer::Accept: a non-None type carrying every requested flag |
| ControlEditor.PlacedPosition | Plugins/TouchEditor/Source/TouchInterfaceDesigner/Private/Viewport/SVirtualControlEditor.cpp:388-412 | a constrained control ends on the canvas; an unconstrained absolute position is kept, and so is a constrained one already on the canvas |
| ControlEditor.NormalizedPlacementMatchesViewport | Plugins/TouchEditor/Source/TouchInterfaceDesigner/Private/Viewport/SVirtualControlEditor.cpp:388-412 | placing a normalized position gives the viewport's NormalizedToCanvasSpace |
| ControlEditor.VirtualControlEditor.constructor | Plugins/TouchEditor/Source/TouchInterfaceDesigner/Private/Viewport/SVirtualControlEditor.cpp:14-38 | no children, not selected, at the start position in normalized space |
| ControlEditor.VirtualControlEditor.MoveChild | Plugins/TouchEditor/Source/TouchInterfaceDesigner/Private/Viewport/SVirtualControlEditor.cpp:497-504 | a child sits at its parent's position plus its offset times the scale |
| ControlEditor.VirtualControlEditor.SetPositionInCanvas | Plugins/TouchEditor/Source/TouchInterfaceDesigner/Private/Viewport/SVirtualControlEditor.cpp:388-426 | places the control as PlacedPosition says, moves every child along when asked, returns the position |
| ControlEditor.VirtualControlEditor.SetOffsetFromParent | Plugins/TouchEditor/Source/TouchInterfaceDesigner/Private/Viewport/SVirtualControlEditor.cpp:433-446 | stores the offset only |
| ControlEditor.VirtualControlEditor.SetParentName | Plugins/TouchEditor/Source/TouchInterfaceDesigner/Private/Viewport/SVirtualControlEditor.cpp:506-509 | stores the parent's name |
| ControlEditor.VirtualControlEditor.SetIsChild | Plugins/TouchEditor/Source/TouchInterfaceDesigner/Private/Viewport/SVirtualControlEditor.cpp:492-495 | stores the child flag |
| ControlEditor.VirtualControlEditor.SetControlName | Plugins/TouchEditor/Source/TouchInterfaceDesigner/Private/Viewport/SVirtualControlEditor.cpp:448-461 | renames the control and points every child at the new name |
| ControlEditor.VirtualControlEditor.AddChild | Plugins/TouchEditor/Source/TouchInterfaceDesigner/Private/Viewport/SVirtualControlEditor.cpp:463-468 | adds or replaces the entry; always true |
| ControlEditor.VirtualControlEditor.RemoveChild | Plugins/TouchEditor/Source/TouchInterfaceDesigner/Private/Viewport/SVirtualControlEditor.cpp:470-490 | removes the present entry; always true |
| ControlEditor.VirtualControlEditor.RenameChild | Plugins/TouchEditor/Source/TouchInterfaceDesigner/Private/Viewport/SVirtualControlEditor.cpp:511-517 | the same child editor under the new name |
| TouchInterfaceConverter.DefaultConvertSettings | Plugins/TouchEditor/Source/TouchInterfaceDesigner/Private/AssetTypeActions/VirtualControlDesignerEditorMenuExtender.h:18-25 | a new conversion keeps the images, targets landscape, keeps the source asset and uses a 1920 x 1080 reference screen |
| TouchInterfaceConverter.ResolvePositionIsNormalized | Plugins/TouchEditor/Source/TouchInterfaceDesigner/Private/Widgets/STouchInterfaceConverter.cpp:382-391 | a position on the reference screen, in pixels or already a fraction, resolves into [0, 1]; a fraction is kept and a pixel value becomes itself over the reference size |
| TouchInterfaceConverter.ResolveVisualIsPixels | Plugins/TouchEditor/Source/TouchInterfaceDesigner/Private/Widgets/STouchInterfaceConverter.cpp:393-402 | a size resolves to pixels: a pixel value is kept, a fraction becomes at most the reference size, and the result never shrinks the input |
| TouchInterfaceConverter.PositionThenVisualRoundTrip | Plugins/TouchEditor/Source/TouchInterfaceDesigner/Private/Widgets/STouchInterfaceConverter.cpp:382-402 | a pixel position resolved to a fraction and scaled back by the size rule gives the same pixel position |
| TouchInterfaceConverter.ConvertedLayersAlwaysDrawn | Plugins/TouchEditor/Source/TouchInterfaceDesigner/Private/Widgets/STouchInterfaceConverter.cpp:331-361 | the background layer (flags 13) and the thumb layer (flags 14) are drawn in both the pressed and the unpressed state, and never for the other role |
| TouchInterfaceConverter.ConvertedLayers | Plugins/TouchEditor/Source/TouchInterfaceDesigner/Private/Widgets/STouchInterfaceConverter.cpp:318-363 | a control with a thumb image gets a background layer then a thumb layer, any other control one background layer |
| TouchInterfaceConverter.ConvertControlShape | Plugins/TouchEditor/Source/TouchInterfaceDesigner/Private/Widgets/STouchInterfaceConverter.cpp:313-374 | a control with a thumb image becomes a joystick with two layers and any other a button with one; kept images show the control's own textures; name, link and portrait centre keep the defaults |
| TouchInterfaceConverter.GenerateVirtualControlData | Plugins/TouchEditor/Source/TouchInterfaceDesigner/Private/Widgets/STouchInterfaceConverter.cpp:308-380 | the result has one converted control per engine control, in the same order |
| TouchInterfaceConverter.Converter.constructor | Plugins/TouchEditor/Source/TouchInterfaceDesigner/Private/Widgets/STouchInterfaceConverter.cpp:15-41 | a new converter starts from the default settings and the default textures, with an empty preview |
| TouchInterfaceConverter.Converter.UpdatePreviewData | Plugins/TouchEditor/Source/TouchInterfaceDesigner/Private/Widgets/STouchInterfaceConverter.cpp:491-494 | afterwards the preview is exactly the conversion of the selected asset under the current settings |
| TouchInterfaceConverter.Converter.HandleOnKeepImageSettingChanged | Plugins/TouchEditor/Source/TouchInterfaceDesigner/Private/Widgets/STouchInterfaceConverter.cpp:458-462 | only the keep-image flag changes, and the preview follows the new settings |
| TouchInterfaceConverter.Converter.HandleOnIsInLandscapeSettingChanged | Plugins/TouchEditor/Source/TouchInterfaceDesigner/Private/Widgets/STouchInterfaceConverter.cpp:464-468 | only the landscape flag changes, and the preview follows the new settings |
| TouchInterfaceConverter.Converter.HandleOnDeleteAfterConversionSettingChanged | Plugins/TouchEditor/Source/TouchInterfaceDesigner/Private/Widgets/STouchInterfaceConverter.cpp:470-473 | only the delete-after-conversion flag changes; the preview is not refreshed |
| TouchInterfaceConverter.Converter.HandleOnWidthSettingChanged | Plugins/TouchEditor/Source/TouchInterfaceDesigner/Private/Widgets/STouchInterfaceConverter.cpp:475-481 | the reference width becomes the new value clamped to [1280, 2560], the height is kept, and the preview follows |
| TouchInterfaceConverter.Converter.HandleOnHeightSettingChanged | Plugins/TouchEditor/Source/TouchInterfaceDesigner/Private/Widgets/STouchInterfaceConverter.cpp:483-489 | the reference height becomes the new value clamped to [720, 1440], the width is kept, and the preview follows |

## Left out

### Outside the model

- Slate widget trees, styles, painting, tooltips, editor tabs, toolbars and commands. These are user-interface construction with no logic of their own.
- GDAL, OGR and PROJ calls. Reading and writing raster and vector files, WKT parsing, and point conversion between reference systems are foreign-library calls. What they answer is a parameter.
- HTTP requests, the tile file cache and image decoding in the Mapbox data source. Whether a tile is cached, and the user's answer to the download warning, are parameters.
- Spawning actors and editing the world: landscapes, meshes, splines, materials, decals, foliage and the static-mesh save. These are engine calls.
- Trigonometry and square roots, which have no exact real model. This covers latitude to tile row and back, corner angles (acos), vector normalisation and distances. They are passed in as functions.
- The procedural mesh's normals, tangents, vertex colours and material (CalcNormalsAndTangents, AddVertexColor, SetMaterial, Tick). These are engine mesh calls and float geometry.
- Import's Gaussian smoothing and edge blending. They run the fast_gaussian_blur filter in floating point.
- Import's GetColorData pixel warping. It is GDAL work; only the decal tiling arithmetic is modelled.
- ParallelFor loops. They are modelled as sequential loops, because every iteration writes its own cells.
- The multicast delegates and timers. The broadcasts whose firing the modelled logic decides are recorded in log fields: OnDataFetched, OnActiveStateChanged, OnVisibilityStateChanged, the shape detection result and OnTapOnDevice. The subsystem's re-broadcasts of touch and state events and MotionManager's OnIMUInputState pass engine values through unchanged and are not recorded. A timer is a flag with an expiry method.
- Log messages, message dialogs and notifications.
- STouchInterface's persistence: Save, Load and DeleteConfiguration go through the save-game system.
- STouchInterface's control-management API: SetControlVisibility, ShowAll, HideAll, GetAllControls, AddControl, RemoveControl, SetControlSize, SetControlPosition, ContainName and the coordinate helpers. These only forward to the child widgets.
- STouchInterface's OnTouchMoved and OnTouchEnded, which route to the same per-widget calls as OnTouchStarted.
- The engine's DPI curve and a project's custom scaling class in TouchInterfaceSettings. The scale each gives is a parameter.
- The subsystem's forwarding calls (AddToPlayerScreen and the like), which do nothing besides calling the widget.
- In the shape designer:
  - the free-draw tool (SVirtualShapeDesignerViewport.cpp:447-556);
  - the panning-offset geometry;
  - ComputeCornerAngle, GenerateData and SimplifyShape, which are float geometry;
  - GetSlateBrush.
- The converter's HandleOnAcceptConversion, which only hands the settings to a delegate.
- VectorTileFactory's AddFile, GetObjects and HasVectorFiles. They read files through GDAL and store what it returns.
- MotionManager:
  - the sensors, which are read by the caller and passed to Tick;
  - ShakeDetector, which has an empty body;
  - Calibrate and StabilizeGyroscope, which only issue engine commands.
- Mapbox's IsValid, SetWorkingDir and the API key, which are settings plumbing.
- The default constructors of the plain data structs beyond the defaults that the model's constructor functions state.
- The child-widget loops of SVirtualControl (RefreshChild, the children's OnTick, and the child loops in Reset and Recenter). One widget is modelled at a time: ResetChild and RecenterChild are what each child runs.
- ChangeControlName's map from names to designer widgets. Only the control list is modelled.
- CopySelected, which is CopySelectedControlData with its answer dropped.

### Weaker contracts and stronger preconditions

- RasterLandscapeData.RasterLandscapeData.CalculateLandscapeResolution: states the engine form of each record's resolution and that it reaches the import size (for sides up to 1023·2·255 + 1), not which configuration the search settles on; the search is a method with early exits and has no function counterpart.
- LandscapingInfo.LandscapingInfo.CalculateScale: requires a non-zero landscape resolution. The source logs an error and then divides by zero anyway.
- RasterTileFactory.Import: requires these, where the source divides or casts to uint16 unchecked:
  - a positive altitude range;
  - heights inside that range;
  - a positive Z scale when a custom scale is used.
- ProcMeshLandscape.ProcMeshLandscape.CreateMesh: requires a grid of at least 2 x 2 with enough samples. The source indexes past the array otherwise.
- TouchDesignerViewport.ScreenSizeFor: requires a registered profile to have a non-zero screen height. The source divides by it.
- TouchDesignerViewport.DesignerViewport.OnScreenSizeButtonClicked: requires the chosen profile to have a non-zero screen height and a positive width. StartupLookupUsable shows that every profile registered at start-up meets this.
- MapboxDataSource.MapboxDataSource.FetchData: requires the satellite and vector zoom settings to lie in 0..30. The source never checks them, but its int shift `1 << z` is undefined outside that range.
- VectorTileFactory.VectorTileFactory.GetShapes: takes the tile bounds as the parameter `bounds`. The source computes them with the infos actor's CalculateTileBounds, which is not part of this model, so nothing ties the shapes to the tile the source would use.
- VirtualShape.UVirtualShape.SetDotData: requires that the first of two or more dots is not an end point. Otherwise the source takes the last element of an empty line list.
- VirtualShapeDesigner.SnapCell: states the snapping exactly as written. Every coordinate below half a cell, negative ones included, snaps one cell above its nearest grid line (on a grid of 10, -100 snaps to -90), as BelowHalfCellMovesUp states; this is kept as a quirk of the source, not corrected.
- ControlEditor.VirtualControlEditor.SetOffsetFromParent: stores the offset but not the position. That is what the source does.
- TouchInterfaceSettings.GetScaleFactor: a float division by zero (a zero layout scale or design width) is `None` here, where the engine produces an infinite or NaN scale.
- VirtualControlDesignerEditor.VirtualControlDesignerEditor.VerifyTextCommitted: takes FText::EqualTo as a case-sensitive comparison.
- VirtualControlWidget.SVirtualControl.OnTick: the auto-positioned centre, which the source never assigns, is the parameter `unsetCenter`.
- VirtualControlSetup.VirtualControlSetup.GetSelectedControl: an index of -1 gives the default control, as the source does.

## Findings

| source | as written | input that shows it | evidently intended | confidence | as-written member | corrected member |
|---|---|---|---|---|---|---|
| Plugins/Landscaping/Source/Landscaping/Private/WeightmapImporter.cpp:250-257 | the complement of each noisy weight is written to pixel DefaultLayerIndex of the same layer, a layer index used as a pixel index | two claimed pixels with noise 100 and 200, minimum weight 64 and default-layer index 0: pixel 0 ends at 55 instead of 100 | pixel i of the layer takes its noisy weight and pixel i of the default layer the complement, so the two sum to 255 | not executed | WeightmapImporter.NoiseAsWritten, WeightmapImporter.NoiseAsWrittenLosesWeight | WeightmapImporter.ApplyNoise |
| Plugins/Landscaping/Source/Landscaping/Private/RasterTileFactory.cpp:354-355 | the pixel count is the product of two int32 components, an int32 itself, so comparing it with INT_MAX can never be true | a 50000 x 50000 tile: 2.5 billion pixels wrap around and the check lets the tile through | reject a tile whose pixel count (six indices per pixel for a mesh) exceeds INT_MAX | not executed | RasterTileFactory.TileTooBigAsWritten, RasterTileFactory.TileSizeCheckNeverFires, RasterTileFactory.TileSizeCheckMissesOverflow | RasterTileFactory.TileTooBig, RasterTileFactory.SizeTiles |
| Plugins/LandscapingMapbox/Source/LandscapingMapbox/Private/MapboxDataSource.cpp:331-336 | the decoded image is accepted when it holds DimX * DimY bytes, but the decoder reads four bytes per pixel | a 128 x 128 RGBA image (65536 bytes) for a 256 x 256 tile passes the guard and the last pixel is read past the end | require 4 * DimX * DimY bytes | not executed | MapboxDataSource.EnoughDataAsWritten, MapboxDataSource.EnoughDataAsWrittenReadsPastEnd | MapboxDataSource.EnoughData, MapboxDataSource.DecodeTerrain |
| Plugins/LandscapingMapbox/Source/LandscapingMapbox/Private/MapboxDataSource.cpp:175-192 | the request count is the product of the two spans, so two negative spans give a positive count while the loops visit no tile | tile columns 10..7 and rows 5..2 (a box with both sides swapped): 4 requests are expected, none is started, and completion never fires | count the tiles the loops visit, which is 0 when either span is empty | not executed | MapboxDataSource.TotalRequestsAsWritten, MapboxDataSource.SwappedBoxCountsPhantomRequests | MapboxDataSource.TotalRequests |
| Plugins/TouchEditor/Source/TouchInterfaceDesigner/Private/Editor/VirtualControlDesignerEditor.cpp:966-968 | a new name is rejected only when it equals an existing name as text, although control names are FNames that ignore case | renaming "Run" to "jump" next to a control "Jump" is accepted and leaves two controls with the same FName | reject a name equal to an existing one as an FName | not executed | VirtualControlDesignerEditor.VirtualControlDesignerEditor.VerifyTextCommitted, VirtualControlDesignerEditor.TextAcceptedAllowsDuplicate | VirtualControlDesignerEditor.VirtualControlDesignerEditor.VerifyControlName, VirtualControlDesignerEditor.AcceptableRenameKeepsNamesUnique |
| Plugins/TouchEditor/Source/TouchInterface/Private/TouchInterface/SVirtualControl.cpp:423-434 | the resolved centre is computed and then ignored: the stored centre is the raw argument | a normalized centre (0.5, 0.5) on a 1920 x 1080 canvas is stored as (0.5, 0.5) instead of (960, 540) | store the resolved centre | not executed | VirtualControlWidget.SVirtualControl.SetLocalPosition, VirtualControlWidget.SetLocalPositionIgnoresNormalization | VirtualControlWidget.SVirtualControl.SetLocalPositionResolved, VirtualControlWidget.LocalPosition |
| Plugins/TouchEditor/Source/TouchInterface/Private/Components/ShapeManager.cpp:289-306 | the restricted recognition returns without clearing bIsComputing or the drawing | any recognition while a restriction is set: afterwards no touch changes the recorder, so nothing is drawn or recognised again | clear the drawing and bIsComputing on every path, as the unrestricted branch does | not executed | ShapeRecognition.AfterComputeAsWritten, ShapeRecognition.RestrictedComputeLocksRecorder | ShapeRecognition.AfterCompute, ShapeRecognition.ComputeReleasesRecorder |
| Plugins/TouchEditor/Source/TouchInterface/Private/Components/ShapeManager.cpp:326-334 | success is broadcast whenever the best score exceeds the threshold, even when no shape was selected and DetectedShape is null | a threshold of -1 with no shapes, or with every shape scoring 0: success is broadcast through a null pointer | report success only for a detected shape | not executed | ShapeRecognition.UnrestrictedDecisionAsWritten, ShapeRecognition.NegativeThresholdDetectsNullShape | ShapeRecognition.UnrestrictedDecision, ShapeRecognition.UnrestrictedDecisionSpec |
| Plugins/TouchEditor/Source/VirtualShapeDesigner/Private/Viewport/SVirtualShapeDesignerViewport.cpp:1191 | the larger Y candidate is built from the smaller X candidate | on a grid of 10, (-100, 50) snaps to (-90, -90): Y moves by 140 | build the Y candidate from the smaller Y candidate, as for X | not executed | VirtualShapeDesigner.GetSnappingPositionAsWritten, VirtualShapeDesigner.SnappedYFollowsX | VirtualShapeDesigner.GetSnappingPosition, VirtualShapeDesigner.SnappingSpec |
| Plugins/TouchEditor/Source/TouchInterfaceDesigner/Private/Viewport/STouchInterfaceDesignerViewport.cpp:1195-1196 | the normalized coordinate is clamped to [0, designer size] instead of [0, 1] | (3840, 540) on a 1920 x 1080 canvas normalizes to (2, 0.5), outside the unit square | clamp to [0, 1], the inverse of NormalizedToCanvasSpace on the canvas | not executed | TouchDesignerViewport.CanvasSpaceToNormalizedAsWritten, TouchDesignerViewport.CanvasBeyondSizeLeavesUnitSquare | TouchDesignerViewport.CanvasSpaceToNormalized, TouchDesignerViewport.NormalizedRoundTrip |
| Plugins/TouchEditor/Source/TouchInterface/Public/Helpers/TouchInterfaceSubsystem.h:282 | a joystick description is converted into a control of type Button | any joystick description: the interface builds a button widget for it | type Joystick | not executed | SubsystemTypes.JoystickToControlAsWritten, SubsystemTypes.JoystickBecomesButton | SubsystemTypes.JoystickToControl, SubsystemTypes.JoystickRoundTrip |
| Plugins/TouchEditor/Source/TouchInterfaceDesigner/Private/Editor/VirtualControlDesignerEditor.cpp:813-820 | a control that is both a parent and a child only unlinks its children (if / else if), so its own parent keeps listing its name after the removal | the chain A, B, C with B the child of A and the parent of C: removing B leaves A listing "B", and a later rename of A looks up "B" and fails its check | unlink the children and then the control itself, with two independent ifs | not executed | VirtualControlDesignerEditor.NestedRemovalAsWrittenLeavesListing | VirtualControlDesignerEditor.VirtualControlDesignerEditor.UnlinkForRemoval, VirtualControlDesignerEditor.RemovalKeepsConsistent |

