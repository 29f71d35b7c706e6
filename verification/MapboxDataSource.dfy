/**
 * UMapboxDataSource: requests the Mapbox tiles that cover a bounding box and
 * reports the resulting raster records through a delegate once every request
 * has completed. HTTP, the file cache, the image decoder and the message
 * dialog are not part of this model: whether a tile is already cached, the
 * user's answer to the download warning and the latitude/tile-row
 * conversions (trigonometric) are parameters. The delegate's broadcasts are
 * recorded in `broadcasts`, the HTTP requests started in `started`.
 */
module MapboxDataSource {
  import opened Common
  import opened RasterData
  import opened MapboxConverter

  const DimX: int := 256
  const DimY: int := 256
  const MinZoom: int := 0
  const MaxZoom: int := 21
  /** The single-precision constants 85.0511f and -85.0511f, exactly. */
  const MaxLatitude: real := 85.0511016845703125
  const MinLatitude: real := -85.0511016845703125
  const MaxLongitude: real := 180.0
  const MinLongitude: real := -180.0

  datatype RequestDataType = Satellite | Terrain | Vector

  /** Which Mapbox tileset serves height data. */
  datatype HeightDataApi = TerrainDemV1 | TerrainRgbV1

  /** The plugin's project settings (the API key is not modelled). */
  datatype MapboxSettings = MapboxSettings(
    zoom: int,
    heightDataApi: HeightDataApi,
    zoomVector: int,
    zoomSatellite: int,
    tileDownloadWarnLimit: int)

  // ------------------------------------------------------------ validation

  const ZoomError: string := "RequestedZoom out of valid Range (0-21)"
  const TopLatitudeError: string := "Top Latitude value out of range (-85.051102-85.051102)"
  const BottomLatitudeError: string := "Bottom Latitude value out of range (-85.051102-85.051102)"
  const RightLongitudeError: string := "Right Longitude value out of range (-180.000000-180.000000)"
  const LeftLongitudeError: string := "Left Longitude value out of range (-180.000000-180.000000)"
  const NoRequestsError: string := "No Requests launched - Please check your Map Bounding Box!"

  /**
   * The request is valid iff the zoom lies in 0..21, the latitudes within
   * +-85.0511 and the longitudes within +-180; otherwise the error of the
   * first failing check, in the order zoom, top, bottom, right, left.
   */
  function ValidateRequest(zoom: int, top: real, bottom: real, right: real, left: real): (err: Option<string>)
    ensures err.None? <==>
      MinZoom <= zoom <= MaxZoom && top <= MaxLatitude && bottom >= MinLatitude
      && right <= MaxLongitude && left >= MinLongitude
    ensures !(MinZoom <= zoom <= MaxZoom) ==> err == Some(ZoomError)
    ensures MinZoom <= zoom <= MaxZoom && top > MaxLatitude ==> err == Some(TopLatitudeError)
    ensures (MinZoom <= zoom <= MaxZoom && top <= MaxLatitude && bottom < MinLatitude)
            ==> err == Some(BottomLatitudeError)
    ensures (MinZoom <= zoom <= MaxZoom && top <= MaxLatitude && bottom >= MinLatitude
             && right > MaxLongitude) ==> err == Some(RightLongitudeError)
    ensures (MinZoom <= zoom <= MaxZoom && top <= MaxLatitude && bottom >= MinLatitude
             && right <= MaxLongitude && left < MinLongitude) ==> err == Some(LeftLongitudeError)
  {
    if zoom < MinZoom || zoom > MaxZoom then Some(ZoomError)
    else if top > MaxLatitude then Some(TopLatitudeError)
    else if bottom < MinLatitude then Some(BottomLatitudeError)
    else if right > MaxLongitude then Some(RightLongitudeError)
    else if left < MinLongitude then Some(LeftLongitudeError)
    else None
  }

  // ------------------------------------------------------- Terrain-RGB

  /** The 24-bit value of an R, G, B byte triple, R most significant. */
  function RgbValue(r: int, g: int, b: int): int
  {
    r * 65536 + g * 256 + b
  }

  /** A Terrain-RGB pixel's height in metres: -10000 + 0.1 * (R * 65536 + G * 256 + B). */
  function TerrainHeight(r: int, g: int, b: int): (h: real)
    requires 0 <= r < 256 && 0 <= g < 256 && 0 <= b < 256
    ensures -10000.0 <= h <= 1667721.5
    ensures h == -10000.0 + RgbValue(r, g, b) as real / 10.0
  {
    RgbBounds(r, g, b);
    -10000.0 + RgbValue(r, g, b) as real * 0.1
  }

  lemma RgbBounds(r: int, g: int, b: int)
    requires 0 <= r < 256 && 0 <= g < 256 && 0 <= b < 256
    ensures 0 <= RgbValue(r, g, b) <= 16777215
  {
  }

  /** The byte triple Mapbox encodes a 24-bit value as. */
  function EncodeRgb(v: int): (rgb: (int, int, int))
    requires 0 <= v < 16777216
    ensures 0 <= rgb.0 < 256 && 0 <= rgb.1 < 256 && 0 <= rgb.2 < 256
  {
    (v / 65536, (v / 256) % 256, v % 256)
  }

  /** Encoding then reading back a 24-bit value gives it back. */
  lemma EncodeThenValue(v: int)
    requires 0 <= v < 16777216
    ensures RgbValue(EncodeRgb(v).0, EncodeRgb(v).1, EncodeRgb(v).2) == v
  {
    var q := v / 256;
    assert v == q * 256 + v % 256;
    assert q == (q / 256) * 256 + q % 256;
    assert q / 256 == v / 65536;
  }

  /** Every byte triple is the encoding of its value: decoding loses nothing. */
  lemma ValueThenEncode(r: int, g: int, b: int)
    requires 0 <= r < 256 && 0 <= g < 256 && 0 <= b < 256
    ensures 0 <= RgbValue(r, g, b) < 16777216
    ensures EncodeRgb(RgbValue(r, g, b)) == (r, g, b)
  {
    var v := RgbValue(r, g, b);
    var q := r * 256 + g;
    assert v == q * 256 + b;
    assert v / 256 == q && v % 256 == b;
    assert q / 256 == r && q % 256 == g;
    assert v / 65536 == (v / 256) / 256;
  }

  /** Distinct pixels decode to distinct heights. */
  lemma TerrainHeightInjective(r: int, g: int, b: int, r': int, g': int, b': int)
    requires 0 <= r < 256 && 0 <= g < 256 && 0 <= b < 256
    requires 0 <= r' < 256 && 0 <= g' < 256 && 0 <= b' < 256
    requires TerrainHeight(r, g, b) == TerrainHeight(r', g', b')
    ensures r == r' && g == g' && b == b'
  {
    ValueThenEncode(r, g, b);
    ValueThenEncode(r', g', b');
  }

  /**
   * The decode loop reads the RGBA bytes as engine colours, whose memory
   * order is B, G, R, A: the colour's B channel holds the image's red byte,
   * which is why the formula uses B as the most significant byte.
   */
  function PixelHeight(raw: seq<int>, k: nat): real
    requires 4 * k + 3 < |raw|
    requires forall i :: 0 <= i < |raw| ==> 0 <= raw[i] < 256
  {
    TerrainHeight(raw[4 * k], raw[4 * k + 1], raw[4 * k + 2])
  }

  /**
   * The raw-size guard as written: it compares the byte count of the RGBA
   * buffer with the number of pixels, and lets a buffer with a quarter of
   * the bytes through.
   */
  predicate EnoughDataAsWritten(dataNum: int, dimX: int, dimY: int)
  {
    !(dataNum < dimX * dimY)
  }

  /** The guard the decode loop needs: four bytes for every pixel it reads. */
  predicate EnoughData(dataNum: int, dimX: int, dimY: int)
  {
    dataNum >= 4 * (dimX * dimY)
  }

  /** A 256 x 256 tile read from a 128 x 128 image: the guard passes, the last pixel is out of the buffer. */
  lemma EnoughDataAsWrittenReadsPastEnd()
    ensures EnoughDataAsWritten(4 * 128 * 128, DimX, DimY)
    ensures !EnoughData(4 * 128 * 128, DimX, DimY)
    ensures 4 * (DimX * DimY - 1) + 3 >= 4 * 128 * 128
  {
  }

  /** Row `row` of the decoded tile: pixels row * dimY .. row * dimY + dimY - 1. */
  function DecodedRow(raw: seq<int>, row: nat, dimX: nat, dimY: nat): (r: seq<real>)
    requires row < dimX && EnoughData(|raw|, dimX, dimY)
    requires forall i :: 0 <= i < |raw| ==> 0 <= raw[i] < 256
    ensures |r| == dimY
  {
    RowBound(row, dimX, dimY);
    seq(dimY, col requires 0 <= col < dimY => PixelHeight(raw, row * dimY + col))
  }

  /**
   * The heights of a Terrain-RGB tile, dimX rows of dimY samples, or None
   * when the buffer is too small (the corrected guard).
   */
  function DecodeTerrain(raw: seq<int>, dimX: nat, dimY: nat): (r: Option<seq<seq<real>>>)
    requires forall i :: 0 <= i < |raw| ==> 0 <= raw[i] < 256
    ensures r.Some? <==> EnoughData(|raw|, dimX, dimY)
    ensures r.Some? ==> |r.value| == dimX && forall row :: 0 <= row < dimX ==> |r.value[row]| == dimY
  {
    if !EnoughData(|raw|, dimX, dimY) then None
    else Some(seq(dimX, row requires 0 <= row < dimX => DecodedRow(raw, row, dimX, dimY)))
  }

  /** Sample (row, col) of a decoded tile is the height of pixel row * dimY + col. */
  lemma DecodedSample(raw: seq<int>, dimX: nat, dimY: nat, row: nat, col: nat)
    requires forall i :: 0 <= i < |raw| ==> 0 <= raw[i] < 256
    requires EnoughData(|raw|, dimX, dimY) && row < dimX && col < dimY
    ensures 4 * (row * dimY + col) + 3 < |raw|
    ensures DecodeTerrain(raw, dimX, dimY).Some?
    ensures DecodeTerrain(raw, dimX, dimY).value[row][col] == PixelHeight(raw, row * dimY + col)
  {
    RowBound(row, dimX, dimY);
  }

  // ------------------------------------------------------------ tile range

  /** A tile column x from row miny to row maxy, top to bottom. */
  function TileColumn(x: int, miny: int, maxy: int): (c: seq<IntVec>)
    ensures |c| == if maxy < miny then 0 else maxy + 1 - miny
    ensures forall j :: 0 <= j < |c| ==> c[j] == IntVec(x, miny + j)
  {
    seq(if maxy < miny then 0 else maxy + 1 - miny, j => IntVec(x, miny + j))
  }

  /** The tiles the request loop visits, column by column (x outer, y inner). */
  function TileGrid(minx: int, maxx: int, miny: int, maxy: int): (g: seq<seq<IntVec>>)
    ensures |g| == if maxx < minx then 0 else maxx + 1 - minx
    ensures forall i :: 0 <= i < |g| ==> g[i] == TileColumn(minx + i, miny, maxy)
  {
    seq(if maxx < minx then 0 else maxx + 1 - minx, i => TileColumn(minx + i, miny, maxy))
  }

  /** The request count as written: the product of the two spans, whatever their signs. */
  function TotalRequestsAsWritten(minx: int, maxx: int, miny: int, maxy: int): int
  {
    (maxx + 1 - minx) * (maxy + 1 - miny)
  }

  /** The number of tiles the loops visit: zero when either span is empty. */
  function TotalRequests(minx: int, maxx: int, miny: int, maxy: int): (n: nat)
    ensures n == |Flatten(TileGrid(minx, maxx, miny, maxy))|
    ensures n > 0 <==> minx <= maxx && miny <= maxy
    ensures minx <= maxx && miny <= maxy ==> n == TotalRequestsAsWritten(minx, maxx, miny, maxy)
  {
    var g := TileGrid(minx, maxx, miny, maxy);
    var h := if maxy < miny then 0 else maxy + 1 - miny;
    FlattenLength(g, h);
    if maxx < minx || maxy < miny then 0 else (maxx + 1 - minx) * (maxy + 1 - miny)
  }

  /**
   * A box given with both sides swapped (left east of right, bottom north of
   * top): the product of the two negative spans counts 4 requests, the loops visit no tile, so no
   * completion ever reaches the count and the delegate never fires.
   */
  lemma SwappedBoxCountsPhantomRequests()
    ensures TotalRequestsAsWritten(10, 7, 5, 2) == 4
    ensures TotalRequests(10, 7, 5, 2) == 0
    ensures Flatten(TileGrid(10, 7, 5, 2)) == []
  {
  }

  /** Satellite and vector requests add a ring of tiles, clamped at row and column 0. */
  function Widen(minx: int, maxx: int, miny: int, maxy: int): (r: (int, int, int, int))
    ensures r == (if minx - 1 > 0 then minx - 1 else 0, maxx + 1, if miny - 1 > 0 then miny - 1 else 0, maxy + 1)
  {
    (if 0 >= minx - 1 then 0 else minx - 1, maxx + 1, if 0 >= miny - 1 then 0 else miny - 1, maxy + 1)
  }

  /** A tile is visited iff its column and its row lie in the range. */
  lemma TileInGrid(minx: int, maxx: int, miny: int, maxy: int, t: IntVec)
    ensures t in Flatten(TileGrid(minx, maxx, miny, maxy)) <==> minx <= t.x <= maxx && miny <= t.y <= maxy
  {
    var g := TileGrid(minx, maxx, miny, maxy);
    FlattenMember(g, t);
    if minx <= t.x <= maxx && miny <= t.y <= maxy {
      assert g[t.x - minx][t.y - miny] == t;
    }
  }

  /** Widening never loses a tile of a range in the first quadrant. */
  lemma WidenContains(minx: int, maxx: int, miny: int, maxy: int, t: IntVec)
    requires 0 <= minx && 0 <= miny
    requires t in Flatten(TileGrid(minx, maxx, miny, maxy))
    ensures var (a, b, c, d) := Widen(minx, maxx, miny, maxy);
      a <= minx && maxx < b && c <= miny && maxy < d
      && t in Flatten(TileGrid(a, b, c, d))
  {
    var (a, b, c, d) := Widen(minx, maxx, miny, maxy);
    TileInGrid(minx, maxx, miny, maxy, t);
    TileInGrid(a, b, c, d, t);
  }

  // --------------------------------------------------------- tile records

  /** What a request needs to know to build a tile's record. */
  datatype TileSpec = TileSpec(
    kind: RequestDataType,
    zoom: nat,
    dimX: int,
    dimY: int,
    tileYToLat: (int, int) -> real)

  /**
   * The record of tile (x, y): its WGS 84 bounds, the pixel size in degrees,
   * three bands for satellite imagery and one otherwise. The cache file name
   * is a formatting of the same numbers and is not modelled.
   */
  function TileData(spec: TileSpec, t: IntVec): (d: RasterData)
    requires ZoomInRange(spec.zoom) && spec.dimX != 0 && spec.dimY != 0
  {
    var left := TileXToLon(t.x, spec.zoom);
    var right := TileXToLon(t.x + 1, spec.zoom);
    var bottom := spec.tileYToLat(t.y + 1, spec.zoom);
    var top := spec.tileYToLat(t.y, spec.zoom);
    Default().(importResolution := IntVec(spec.dimX, spec.dimY), projection := "EPSG:4326",
               bottom := bottom, left := left, top := top, right := right,
               meterPerPixel := Vec3((right - left) / spec.dimX as real, (bottom - top) / spec.dimY as real, 0.0),
               mapboxImport := true, bandCount := if spec.kind == Satellite then 3 else 1)
  }

  /**
   * A tile's record: the resolution of the tileset, WGS 84, the western and
   * eastern edges of its column with west < east, a pixel width that spans
   * the column, and three bands only for satellite imagery.
   */
  lemma TileDataSpan(spec: TileSpec, t: IntVec)
    requires ZoomInRange(spec.zoom) && spec.dimX > 0 && spec.dimY > 0
    ensures var d := TileData(spec, t);
      && d.importResolution == IntVec(spec.dimX, spec.dimY) && d.projection == "EPSG:4326"
      && d.left == TileXToLon(t.x, spec.zoom) && d.right == TileXToLon(t.x + 1, spec.zoom)
      && d.left < d.right && d.meterPerPixel.x > 0.0
      && d.meterPerPixel.x * spec.dimX as real == d.right - d.left
      && d.mapboxImport && d.error == "" && d.rasterBandData == []
      && d.bandCount == if spec.kind == Satellite then 3 else 1
  {
    TileXToLonIncreasing(t.x, t.x + 1, spec.zoom);
    var d := TileData(spec, t);
    PositiveQuotient(d.right - d.left, spec.dimX as real);
  }

  lemma PositiveQuotient(a: real, n: real)
    requires a > 0.0 && n > 0.0
    ensures a / n > 0.0 && a / n * n == a
  {
  }

  /** An HTTP request the source started: the tile and the record its response will fill. */
  datatype TileRequest = TileRequest(kind: RequestDataType, tile: IntVec, data: RasterData)

  /** The tiles of `tiles` that are (cached) or are not (uncached) in the file cache, in order. */
  function Cached(tiles: seq<IntVec>, cached: (int, int) -> bool, want: bool): (r: seq<IntVec>)
    ensures |r| <= |tiles|
  {
    if tiles == [] then []
    else
      var t := tiles[|tiles| - 1];
      Cached(tiles[..|tiles| - 1], cached, want) + (if cached(t.x, t.y) == want then [t] else [])
  }

  lemma {:induction false} CachedAppend(a: seq<IntVec>, b: seq<IntVec>, cached: (int, int) -> bool, want: bool)
    ensures Cached(a + b, cached, want) == Cached(a, cached, want) + Cached(b, cached, want)
  {
    if b != [] {
      var n := |b| - 1;
      assert (a + b)[..|a + b| - 1] == a + b[..n];
      CachedAppend(a, b[..n], cached, want);
    } else {
      assert a + b == a;
    }
  }

  /** Every tile is either cached or requested. */
  lemma {:induction false} CachedSplit(tiles: seq<IntVec>, cached: (int, int) -> bool)
    ensures |Cached(tiles, cached, true)| + |Cached(tiles, cached, false)| == |tiles|
  {
    if tiles != [] {
      CachedSplit(tiles[..|tiles| - 1], cached);
    }
  }

  function DataOf(spec: TileSpec, tiles: seq<IntVec>): (r: seq<RasterData>)
    requires ZoomInRange(spec.zoom) && spec.dimX != 0 && spec.dimY != 0
    ensures |r| == |tiles| && forall k :: 0 <= k < |tiles| ==> r[k] == TileData(spec, tiles[k])
  {
    seq(|tiles|, k requires 0 <= k < |tiles| => TileData(spec, tiles[k]))
  }

  function RequestsOf(spec: TileSpec, tiles: seq<IntVec>): (r: seq<TileRequest>)
    requires ZoomInRange(spec.zoom) && spec.dimX != 0 && spec.dimY != 0
    ensures |r| == |tiles| && forall k :: 0 <= k < |tiles| ==> r[k] == TileRequest(spec.kind, tiles[k], TileData(spec, tiles[k]))
  {
    seq(|tiles|, k requires 0 <= k < |tiles| => TileRequest(spec.kind, tiles[k], TileData(spec, tiles[k])))
  }

  // ------------------------------------------------------------ the source

  /** The lemmas the request loops use: laying out more tiles appends their records and requests. */
  lemma DataOfAppend(spec: TileSpec, a: seq<IntVec>, b: seq<IntVec>)
    requires ZoomInRange(spec.zoom) && spec.dimX != 0 && spec.dimY != 0
    ensures DataOf(spec, a + b) == DataOf(spec, a) + DataOf(spec, b)
  {
  }

  lemma RequestsOfAppend(spec: TileSpec, a: seq<IntVec>, b: seq<IntVec>)
    requires ZoomInRange(spec.zoom) && spec.dimX != 0 && spec.dimY != 0
    ensures RequestsOf(spec, a + b) == RequestsOf(spec, a) + RequestsOf(spec, b)
  {
  }

  /** The tiles a request for this box visits, in loop order. */
  function RequestedTiles(left: real, right: real, bottom: real, top: real, kind: RequestDataType, zoom: int,
                          latToTileY: (real, int) -> int): seq<IntVec>
    requires ZoomInRange(zoom)
  {
    var (minx, maxx, miny, maxy) := TileRange(left, right, bottom, top, kind, zoom, latToTileY);
    Flatten(TileGrid(minx, maxx, miny, maxy))
  }

  class MapboxDataSource {
    var requestedTopLatitude: real
    var requestedLeftLongitude: real
    var requestedBottomLatitude: real
    var requestedRightLongitude: real
    var requestedZoom: int
    var requestedZoomSatellite: int
    var requestedZoomVector: int
    var landscapingTileIndex: int
    var mapboxDimX: int
    var mapboxDimY: int
    var totalRequests: int
    var requestFailed: bool
    var completedRequests: int
    var outDatas: seq<RasterData>
    /** The data each broadcast of the delegate carried, oldest first. */
    var broadcasts: seq<seq<RasterData>>
    /** The HTTP requests started, oldest first. */
    var started: seq<TileRequest>

    constructor (settings: MapboxSettings)
      ensures requestedZoom == settings.zoom && requestedZoomSatellite == settings.zoomSatellite
      ensures requestedZoomVector == settings.zoomVector
      ensures totalRequests == 0 && completedRequests == 0 && !requestFailed
      ensures outDatas == [] && broadcasts == [] && started == []
    {
      requestedZoom := settings.zoom;
      requestedZoomSatellite := settings.zoomSatellite;
      requestedZoomVector := settings.zoomVector;
      totalRequests, completedRequests, requestFailed := 0, 0, false;
      outDatas, broadcasts, started := [], [], [];
    }

    /**
     * After the tiles `done` were visited: the cached ones were finished in
     * order, the others requested in order, and the delegate fired once the
     * completions reached the count.
     */
    ghost predicate Visited(spec: TileSpec, cached: (int, int) -> bool, done: seq<IntVec>,
                            started0: seq<TileRequest>, broadcasts0: seq<seq<RasterData>>)
      requires ZoomInRange(spec.zoom) && spec.dimX != 0 && spec.dimY != 0
      reads this
    {
      && outDatas == DataOf(spec, Cached(done, cached, true))
      && started == started0 + RequestsOf(spec, Cached(done, cached, false))
      && completedRequests == |Cached(done, cached, true)|
      && broadcasts == broadcasts0 + (if completedRequests == totalRequests then [outDatas] else [])
    }

    /**
     * The outcome of a validated request for `tiles`: with no tile, an error
     * record reported; declined at the download warning, nothing; otherwise
     * every tile visited.
     */
    ghost predicate Requested(spec: TileSpec, cached: (int, int) -> bool, tiles: seq<IntVec>, declined: bool,
                              started0: seq<TileRequest>, broadcasts0: seq<seq<RasterData>>)
      requires ZoomInRange(spec.zoom) && spec.dimX != 0 && spec.dimY != 0
      reads this
    {
      && totalRequests == |tiles|
      && (tiles == [] ==>
            outDatas == [WithError(NoRequestsError)] && broadcasts == broadcasts0 + [outDatas]
            && started == started0 && completedRequests == 0)
      && (tiles != [] && declined ==>
            outDatas == [] && broadcasts == broadcasts0 && started == started0 && completedRequests == 0)
      && (tiles != [] && !declined ==> Visited(spec, cached, tiles, started0, broadcasts0))
    }

    /** Stores the box and the landscape tile it is for. */
    method SetExtents(bottom: real, left: real, top: real, right: real, tileIndex: int)
      modifies this
      ensures requestedBottomLatitude == bottom && requestedLeftLongitude == left
      ensures requestedTopLatitude == top && requestedRightLongitude == right
      ensures landscapingTileIndex == tileIndex
      ensures requestedZoom == old(requestedZoom) && requestedZoomSatellite == old(requestedZoomSatellite)
      ensures requestedZoomVector == old(requestedZoomVector)
      ensures outDatas == old(outDatas) && broadcasts == old(broadcasts) && started == old(started)
      ensures totalRequests == old(totalRequests) && completedRequests == old(completedRequests)
    {
      requestedBottomLatitude, requestedLeftLongitude := bottom, left;
      requestedTopLatitude, requestedRightLongitude := top, right;
      landscapingTileIndex := tileIndex;
    }

    /** One response arrived with its record: count it, keep it, and report once all have completed. */
    method FinishResponse(data: RasterData)
      modifies this
      ensures completedRequests == old(completedRequests) + 1
      ensures outDatas == old(outDatas) + [data]
      ensures broadcasts == old(broadcasts) + (if completedRequests >= totalRequests then [outDatas] else [])
      ensures totalRequests == old(totalRequests) && started == old(started) && requestFailed == old(requestFailed)
      ensures requestedZoom == old(requestedZoom) && mapboxDimX == old(mapboxDimX) && mapboxDimY == old(mapboxDimY)
      ensures requestedZoomSatellite == old(requestedZoomSatellite) && requestedZoomVector == old(requestedZoomVector)
    {
      completedRequests := completedRequests + 1;
      outDatas := outDatas + [data];
      if completedRequests >= totalRequests {
        broadcasts := broadcasts + [outDatas];
      }
    }

    /** One request failed: it still counts as completed, but adds no record. */
    method AbortWithError()
      modifies this
      ensures completedRequests == old(completedRequests) + 1
      ensures outDatas == old(outDatas)
      ensures broadcasts == old(broadcasts) + (if completedRequests >= totalRequests then [outDatas] else [])
      ensures totalRequests == old(totalRequests) && started == old(started)
    {
      completedRequests := completedRequests + 1;
      if completedRequests >= totalRequests {
        broadcasts := broadcasts + [outDatas];
      }
    }

    /**
     * FetchData: takes the zoom levels from the settings and requests the
     * stored box. Zoom levels past 30 would shift past the width of an int
     * and are excluded.
     */
    method FetchData(settings: MapboxSettings, kind: RequestDataType, latToTileY: (real, int) -> int,
                     tileYToLat: (int, int) -> real, cached: (int, int) -> bool, confirmed: bool)
      modifies this
      requires ZoomInRange(settings.zoomSatellite) && ZoomInRange(settings.zoomVector)
      ensures requestedZoomSatellite == settings.zoomSatellite && requestedZoomVector == settings.zoomVector
      // an invalid box: one error record appended and reported, nothing requested
      ensures ValidateRequest(settings.zoom, old(requestedTopLatitude), old(requestedBottomLatitude),
                              old(requestedRightLongitude), old(requestedLeftLongitude)).Some? ==>
        && requestedZoom == settings.zoom
        && totalRequests == 0 && completedRequests == 0 && started == old(started)
        && outDatas == old(outDatas) + [WithError(ValidateRequest(settings.zoom, old(requestedTopLatitude),
             old(requestedBottomLatitude), old(requestedRightLongitude), old(requestedLeftLongitude)).value)]
        && broadcasts == old(broadcasts) + [outDatas]
      // a valid box: the tileset's zoom and tile size, and the tiles covering the stored box requested
      ensures ValidateRequest(settings.zoom, old(requestedTopLatitude), old(requestedBottomLatitude),
                              old(requestedRightLongitude), old(requestedLeftLongitude)).None? ==>
        && requestedZoom == (match kind
             case Satellite => settings.zoomSatellite
             case Vector => settings.zoomVector
             case Terrain => if settings.heightDataApi == TerrainDemV1 && settings.zoom > 14 then 14 else settings.zoom)
        && (mapboxDimX, mapboxDimY) ==
             (if kind == Terrain && settings.heightDataApi == TerrainDemV1 then (2 * DimX, 2 * DimY) else (DimX, DimY))
        && ZoomInRange(requestedZoom)
        && var tiles := RequestedTiles(old(requestedLeftLongitude), old(requestedRightLongitude),
                                       old(requestedBottomLatitude), old(requestedTopLatitude), kind, requestedZoom, latToTileY);
           Requested(TileSpec(kind, requestedZoom, mapboxDimX, mapboxDimY, tileYToLat), cached, tiles,
                     settings.tileDownloadWarnLimit > 0 && |tiles| > settings.tileDownloadWarnLimit && !confirmed,
                     old(started), old(broadcasts))
    {
      requestedZoom := settings.zoom;
      requestedZoomVector := settings.zoomVector;
      requestedZoomSatellite := settings.zoomSatellite;
      Request(requestedBottomLatitude, requestedLeftLongitude, requestedTopLatitude, requestedRightLongitude,
              kind, settings.heightDataApi, settings.tileDownloadWarnLimit, latToTileY, tileYToLat, cached, confirmed);
    }

    /**
     * Request: validates the stored box, then picks the tileset's zoom and
     * tile size (Terrain-DEM v1 caps the zoom at 14 and serves tiles of
     * twice the size) and requests the tiles covering the given box.
     */
    method Request(bottom: real, left: real, top: real, right: real, kind: RequestDataType,
                   heightDataApi: HeightDataApi, warnLimit: int, latToTileY: (real, int) -> int,
                   tileYToLat: (int, int) -> real, cached: (int, int) -> bool, confirmed: bool)
      modifies this
      requires ZoomInRange(requestedZoomSatellite) && ZoomInRange(requestedZoomVector)
      ensures requestedZoomSatellite == old(requestedZoomSatellite) && requestedZoomVector == old(requestedZoomVector)
      ensures !requestFailed && completedRequests <= totalRequests
      // an invalid box: one error record appended and reported, nothing requested
      ensures ValidateRequest(old(requestedZoom), old(requestedTopLatitude), old(requestedBottomLatitude),
                              old(requestedRightLongitude), old(requestedLeftLongitude)).Some? ==>
        && requestedZoom == old(requestedZoom)
        && totalRequests == 0 && completedRequests == 0 && started == old(started)
        && outDatas == old(outDatas) + [WithError(ValidateRequest(old(requestedZoom), old(requestedTopLatitude),
             old(requestedBottomLatitude), old(requestedRightLongitude), old(requestedLeftLongitude)).value)]
        && broadcasts == old(broadcasts) + [outDatas]
      // a valid box: the tileset's zoom and tile size, and the tiles requested
      ensures ValidateRequest(old(requestedZoom), old(requestedTopLatitude), old(requestedBottomLatitude),
                              old(requestedRightLongitude), old(requestedLeftLongitude)).None? ==>
        && requestedZoom == (match kind
             case Satellite => old(requestedZoomSatellite)
             case Vector => old(requestedZoomVector)
             case Terrain => if heightDataApi == TerrainDemV1 && old(requestedZoom) > 14 then 14 else old(requestedZoom))
        && (mapboxDimX, mapboxDimY) == (if kind == Terrain && heightDataApi == TerrainDemV1 then (2 * DimX, 2 * DimY) else (DimX, DimY))
        && ZoomInRange(requestedZoom)
        && var tiles := RequestedTiles(left, right, bottom, top, kind, requestedZoom, latToTileY);
           Requested(TileSpec(kind, requestedZoom, mapboxDimX, mapboxDimY, tileYToLat), cached, tiles,
                     warnLimit > 0 && |tiles| > warnLimit && !confirmed, old(started), old(broadcasts))
    {
      requestFailed := false;
      totalRequests := 0;
      completedRequests := 0;
      var validationError := ValidateRequest(requestedZoom, requestedTopLatitude, requestedBottomLatitude,
                                             requestedRightLongitude, requestedLeftLongitude);
      if validationError.Some? {
        outDatas := outDatas + [WithError(validationError.value)];
        broadcasts := broadcasts + [outDatas];
        return;
      }
      ghost var started0, broadcasts0 := started, broadcasts;
      SelectTileset(kind, heightDataApi);
      assert started == started0 && broadcasts == broadcasts0;
      ghost var zoom1 := requestedZoom;
      RequestRange(bottom, left, top, right, kind, warnLimit, latToTileY, tileYToLat, cached, confirmed);
      assert requestedZoom == zoom1;
    }

    /** The zoom and tile size of the tileset that serves this kind of data. */
    method SelectTileset(kind: RequestDataType, heightDataApi: HeightDataApi)
      modifies this
      requires ZoomInRange(requestedZoom) && ZoomInRange(requestedZoomSatellite) && ZoomInRange(requestedZoomVector)
      ensures requestedZoom == match kind
        case Satellite => old(requestedZoomSatellite)
        case Vector => old(requestedZoomVector)
        case Terrain => if heightDataApi == TerrainDemV1 && old(requestedZoom) > 14 then 14 else old(requestedZoom)
      ensures (mapboxDimX, mapboxDimY) ==
        if kind == Terrain && heightDataApi == TerrainDemV1 then (2 * DimX, 2 * DimY) else (DimX, DimY)
      ensures ZoomInRange(requestedZoom)
      ensures requestedZoomSatellite == old(requestedZoomSatellite) && requestedZoomVector == old(requestedZoomVector)
      ensures totalRequests == old(totalRequests) && completedRequests == old(completedRequests)
      ensures requestFailed == old(requestFailed)
      ensures outDatas == old(outDatas) && started == old(started) && broadcasts == old(broadcasts)
    {
      mapboxDimX, mapboxDimY := DimX, DimY;
      if heightDataApi == TerrainDemV1 {
        requestedZoom := if requestedZoom > 14 then 14 else requestedZoom;
        mapboxDimX, mapboxDimY := 2 * DimX, 2 * DimY;
      }
      match kind {
        case Satellite =>
          requestedZoom := requestedZoomSatellite;
          mapboxDimX, mapboxDimY := DimX, DimY;
        case Vector =>
          requestedZoom := requestedZoomVector;
          mapboxDimX, mapboxDimY := DimX, DimY;
        case Terrain =>
      }
    }

    /**
     * The second half of Request: the tile range, the request count, the
     * download warning, and the request loops (or the error record when
     * there is no tile).
     */
    method RequestRange(bottom: real, left: real, top: real, right: real, kind: RequestDataType,
                        warnLimit: int, latToTileY: (real, int) -> int,
                        tileYToLat: (int, int) -> real, cached: (int, int) -> bool, confirmed: bool)
      modifies this
      requires ZoomInRange(requestedZoom) && mapboxDimX != 0 && mapboxDimY != 0
      requires completedRequests == 0
      ensures requestedZoom == old(requestedZoom) && mapboxDimX == old(mapboxDimX) && mapboxDimY == old(mapboxDimY)
      ensures requestedZoomSatellite == old(requestedZoomSatellite) && requestedZoomVector == old(requestedZoomVector)
      ensures requestFailed == old(requestFailed) && completedRequests <= totalRequests
      ensures var tiles := RequestedTiles(left, right, bottom, top, kind, requestedZoom, latToTileY);
        Requested(TileSpec(kind, requestedZoom, mapboxDimX, mapboxDimY, tileYToLat), cached, tiles,
                  warnLimit > 0 && |tiles| > warnLimit && !confirmed, old(started), old(broadcasts))
    {
      var (minx, maxx, miny, maxy) := TileRange(left, right, bottom, top, kind, requestedZoom, latToTileY);
      outDatas := [];
      totalRequests := TotalRequests(minx, maxx, miny, maxy);
      if totalRequests > 0 {
        if warnLimit > 0 && totalRequests > warnLimit && !confirmed {
          return;
        }
        var spec := TileSpec(kind, requestedZoom, mapboxDimX, mapboxDimY, tileYToLat);
        RequestTiles(spec, minx, maxx, miny, maxy, cached);
      } else {
        outDatas := outDatas + [WithError(NoRequestsError)];
        broadcasts := broadcasts + [outDatas];
      }
    }

    /** The request loops: x outer, y inner; a cached tile finishes at once, the others are requested. */
    method RequestTiles(spec: TileSpec, minx: int, maxx: int, miny: int, maxy: int, cached: (int, int) -> bool)
      modifies this
      requires ZoomInRange(spec.zoom) && spec.dimX != 0 && spec.dimY != 0
      requires totalRequests == |Flatten(TileGrid(minx, maxx, miny, maxy))| > 0
      requires completedRequests == 0 && outDatas == []
      ensures totalRequests == old(totalRequests) && requestedZoom == old(requestedZoom)
      ensures requestedZoomSatellite == old(requestedZoomSatellite) && requestedZoomVector == old(requestedZoomVector)
      ensures mapboxDimX == old(mapboxDimX) && mapboxDimY == old(mapboxDimY) && requestFailed == old(requestFailed)
      ensures completedRequests <= totalRequests
      ensures Visited(spec, cached, Flatten(TileGrid(minx, maxx, miny, maxy)), old(started), old(broadcasts))
    {
      ghost var g := TileGrid(minx, maxx, miny, maxy);
      ghost var h := if maxy < miny then 0 else maxy + 1 - miny;
      ghost var done: seq<IntVec> := [];
      assert g[..0] == [];
      var x := minx;
      while x <= maxx
        invariant minx <= x <= maxx + 1
        invariant totalRequests == old(totalRequests) && requestedZoom == old(requestedZoom)
        invariant requestedZoomSatellite == old(requestedZoomSatellite) && requestedZoomVector == old(requestedZoomVector)
        invariant mapboxDimX == old(mapboxDimX) && mapboxDimY == old(mapboxDimY) && requestFailed == old(requestFailed)
        invariant done == Flatten(g[..x - minx])
        invariant completedRequests <= |done|
        invariant Visited(spec, cached, done, old(started), old(broadcasts))
      {
        FlattenColumns(g, h, x - minx);
        assert g[x - minx] == TileColumn(x, miny, maxy);
        RequestColumn(spec, x, miny, maxy, cached, done, old(started), old(broadcasts));
        FlattenStep(g, x - minx);
        done := done + TileColumn(x, miny, maxy);
        x := x + 1;
      }
      assert g[..x - minx] == g;
    }

    /** The inner loop over one tile column. */
    method RequestColumn(spec: TileSpec, x: int, miny: int, maxy: int, cached: (int, int) -> bool,
                         ghost done: seq<IntVec>, ghost started0: seq<TileRequest>,
                         ghost broadcasts0: seq<seq<RasterData>>)
      modifies this
      requires ZoomInRange(spec.zoom) && spec.dimX != 0 && spec.dimY != 0
      requires |done| + |TileColumn(x, miny, maxy)| <= totalRequests
      requires completedRequests <= |done|
      requires Visited(spec, cached, done, started0, broadcasts0)
      ensures totalRequests == old(totalRequests) && requestedZoom == old(requestedZoom)
      ensures requestedZoomSatellite == old(requestedZoomSatellite) && requestedZoomVector == old(requestedZoomVector)
      ensures mapboxDimX == old(mapboxDimX) && mapboxDimY == old(mapboxDimY) && requestFailed == old(requestFailed)
      ensures completedRequests <= |done + TileColumn(x, miny, maxy)|
      ensures Visited(spec, cached, done + TileColumn(x, miny, maxy), started0, broadcasts0)
    {
      ghost var column := TileColumn(x, miny, maxy);
      assert done + column[..0] == done;
      var y := miny;
      while y <= maxy
        invariant miny <= y && y - miny <= |column|
        invariant totalRequests == old(totalRequests) && requestedZoom == old(requestedZoom)
        invariant requestedZoomSatellite == old(requestedZoomSatellite) && requestedZoomVector == old(requestedZoomVector)
        invariant mapboxDimX == old(mapboxDimX) && mapboxDimY == old(mapboxDimY) && requestFailed == old(requestFailed)
        invariant completedRequests <= |done + column[..y - miny]|
        invariant Visited(spec, cached, done + column[..y - miny], started0, broadcasts0)
      {
        ghost var prefix := done + column[..y - miny];
        assert done + column[..y - miny + 1] == prefix + [IntVec(x, y)];
        VisitTile(spec, x, y, cached, prefix, started0, broadcasts0);
        y := y + 1;
      }
      assert column[..y - miny] == column;
    }

    /** The loop body: a cached tile is finished at once, any other is requested. */
    method VisitTile(spec: TileSpec, x: int, y: int, cached: (int, int) -> bool, ghost prefix: seq<IntVec>,
                     ghost started0: seq<TileRequest>, ghost broadcasts0: seq<seq<RasterData>>)
      modifies this
      requires ZoomInRange(spec.zoom) && spec.dimX != 0 && spec.dimY != 0
      requires completedRequests <= |prefix| < totalRequests
      requires Visited(spec, cached, prefix, started0, broadcasts0)
      ensures totalRequests == old(totalRequests) && requestedZoom == old(requestedZoom)
      ensures requestedZoomSatellite == old(requestedZoomSatellite) && requestedZoomVector == old(requestedZoomVector)
      ensures mapboxDimX == old(mapboxDimX) && mapboxDimY == old(mapboxDimY) && requestFailed == old(requestFailed)
      ensures completedRequests <= |prefix| + 1
      ensures Visited(spec, cached, prefix + [IntVec(x, y)], started0, broadcasts0)
    {
      CachedAppend(prefix, [IntVec(x, y)], cached, true);
      CachedAppend(prefix, [IntVec(x, y)], cached, false);
      var data := TileData(spec, IntVec(x, y));
      if cached(x, y) {
        DataOfAppend(spec, Cached(prefix, cached, true), [IntVec(x, y)]);
        FinishResponse(data);
      } else {
        RequestsOfAppend(spec, Cached(prefix, cached, false), [IntVec(x, y)]);
        started := started + [TileRequest(spec.kind, IntVec(x, y), data)];
      }
    }
  }

  /**
   * Once every tile of a request was visited, the completions reach the
   * count (and the delegate has fired) iff no tile had to be fetched.
   */
  lemma CompleteIffAllCached(src: MapboxDataSource, spec: TileSpec, cached: (int, int) -> bool, tiles: seq<IntVec>,
                             started0: seq<TileRequest>, broadcasts0: seq<seq<RasterData>>)
    requires ZoomInRange(spec.zoom) && spec.dimX != 0 && spec.dimY != 0
    requires src.totalRequests == |tiles|
    requires src.Visited(spec, cached, tiles, started0, broadcasts0)
    ensures src.completedRequests == src.totalRequests <==> src.started == started0
    ensures |src.broadcasts| == |broadcasts0| + (if src.started == started0 then 1 else 0)
  {
    CachedSplit(tiles, cached);
    assert src.started == started0 <==> |RequestsOf(spec, Cached(tiles, cached, false))| == 0;
  }

  /** Column i of the grid ends within the tile count. */
  lemma FlattenColumns(g: seq<seq<IntVec>>, h: nat, i: nat)
    requires forall k :: 0 <= k < |g| ==> |g[k]| == h
    requires i < |g|
    ensures |Flatten(g[..i])| + |g[i]| <= |Flatten(g)|
  {
    FlattenLength(g[..i], h);
    FlattenLength(g, h);
    RowBound(i, |g|, h);
  }

  /** The tile range of the box at this zoom: columns from the longitudes, rows from the latitudes (north is row 0). */
  function TileRange(left: real, right: real, bottom: real, top: real, kind: RequestDataType, zoom: int,
                     latToTileY: (real, int) -> int): (int, int, int, int)
    requires ZoomInRange(zoom)
  {
    var maxy := latToTileY(bottom, zoom);
    var minx := LonToTileX(left, zoom);
    var miny := latToTileY(top, zoom);
    var maxx := LonToTileX(right, zoom);
    if kind == Satellite || kind == Vector then Widen(minx, maxx, miny, maxy) else (minx, maxx, miny, maxy)
  }
}
