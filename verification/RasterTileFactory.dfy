/**
 * The tiling arithmetic of RasterTileFactory: the square tile configurations
 * the engine's tiled import accepts, how PrepareImport splits a landscape into
 * tiles and sizes them, how Import quantises heights into the 16-bit height
 * map, the coarsest-first order MergeOverlapping merges in, and how satellite
 * imagery is cut into decal tiles of at most 8192 pixels.
 */
module RasterTileFactory {
  import opened Common
  import opened LandscapingStructs
  import opened RasterData
  import opened RasterLandscapeData
  import opened LandscapingInfo

  // ---------------------------------------------------- square configurations

  /** 2^q - 1 for some q in 3..8: a quads-per-section count the engine accepts. */
  predicate IsQuadCount(n: int)
  {
    exists q: nat :: 3 <= q <= 8 && n == Pow2(q) - 1
  }

  predicate ValidConfiguration(e: TileImportConfiguration)
  {
    && 1 <= e.numComponents <= 32
    && 1 <= e.numSectionsPerComponent <= 2
    && IsQuadCount(e.numQuadsPerSection)
    && e.sizeX == e.numComponents * e.numSectionsPerComponent * e.numQuadsPerSection + 1
  }

  /** The sort order of GetSquareConfigurations: by SizeX, then by NumComponents. */
  predicate ConfigurationBefore(a: TileImportConfiguration, b: TileImportConfiguration)
  {
    a.sizeX < b.sizeX || (a.sizeX == b.sizeX && a.numComponents <= b.numComponents)
  }

  predicate ConfigurationsSorted(s: seq<TileImportConfiguration>)
  {
    forall i, j :: 0 <= i < j < |s| ==> ConfigurationBefore(s[i], s[j])
  }

  /** One number that orders configurations of 1..32 components as ConfigurationBefore does. */
  function ConfigurationKey(e: TileImportConfiguration): real
  {
    (e.sizeX * 64 + e.numComponents) as real
  }

  lemma KeyOrdersConfigurations(a: TileImportConfiguration, b: TileImportConfiguration)
    requires 1 <= a.numComponents <= 32 && 1 <= b.numComponents <= 32
    requires ConfigurationKey(a) <= ConfigurationKey(b)
    ensures ConfigurationBefore(a, b)
  {
  }

  /** The configuration of c components, s sections per component and 2^q - 1 quads per section. */
  function ConfigurationOf(c: int, s: int, q: nat): TileImportConfiguration
  {
    var quads := Pow2(q) - 1;
    TileImportConfiguration(c * s * quads + 1, c, s, quads)
  }

  /** Entry k of the generation loops before sorting: components outermost, quads innermost. */
  function GeneratedAt(k: nat): TileImportConfiguration
  {
    ConfigurationOf(k / 12 + 1, k % 12 / 6 + 1, k % 6 + 3)
  }

  /** Components c, sections s and quad exponent q are generated at position 12(c-1) + 6(s-1) + (q-3). */
  lemma GeneratedIndex(c: int, s: int, q: nat)
    requires 1 <= c <= 32 && 1 <= s <= 2 && 3 <= q <= 8
    ensures var k := 12 * (c - 1) + 6 * (s - 1) + (q - 3);
      0 <= k < 384 && k / 12 == c - 1 && k % 12 / 6 == s - 1 && k % 6 == q - 3
  {
  }

  lemma GeneratedValid(k: nat)
    requires k < 384
    ensures ValidConfiguration(GeneratedAt(k))
  {
    var q := k % 6 + 3;
    assert Pow2(q) - 1 == Pow2(q) - 1;
  }

  lemma {:induction false} Pow2Increasing(a: nat, b: nat)
    requires a < b
    ensures Pow2(a) < Pow2(b)
  {
    if a + 1 < b {
      Pow2Increasing(a, b - 1);
    }
  }

  /** No configuration is generated twice. */
  lemma GeneratedDistinct(k1: nat, k2: nat)
    requires k1 < k2 < 384
    ensures GeneratedAt(k1) != GeneratedAt(k2)
  {
    var q1, q2 := k1 % 6 + 3, k2 % 6 + 3;
    if q1 < q2 {
      Pow2Increasing(q1, q2);
    } else if q2 < q1 {
      Pow2Increasing(q2, q1);
    }
    assert k1 == 12 * (k1 / 12) + 6 * (k1 % 12 / 6) + k1 % 6;
    assert k2 == 12 * (k2 / 12) + 6 * (k2 % 12 / 6) + k2 % 6;
  }

  /** Every valid configuration is generated. */
  lemma GeneratedComplete(e: TileImportConfiguration) returns (k: nat)
    requires ValidConfiguration(e)
    ensures k < 384 && GeneratedAt(k) == e
  {
    var q: nat :| 3 <= q <= 8 && e.numQuadsPerSection == Pow2(q) - 1;
    GeneratedIndex(e.numComponents, e.numSectionsPerComponent, q);
    k := 12 * (e.numComponents - 1) + 6 * (e.numSectionsPerComponent - 1) + (q - 3);
  }

  /**
   * Every combination of 1..32 components, 1..2 sections and 2^3-1..2^8-1
   * quads, with SizeX = components * sections * quads + 1, each once, sorted
   * by SizeX and then by the number of components.
   */
  method GetSquareConfigurations() returns (configs: seq<TileImportConfiguration>)
    ensures |configs| == 384
    ensures forall e :: e in configs <==> ValidConfiguration(e)
    ensures NoDuplicates(configs)
    ensures ConfigurationsSorted(configs)
  {
    var all: seq<TileImportConfiguration> := [];
    for c := 1 to 33
      invariant |all| == 12 * (c - 1)
      invariant forall k :: 0 <= k < |all| ==> all[k] == GeneratedAt(k)
    {
      for s := 1 to 3
        invariant |all| == 12 * (c - 1) + 6 * (s - 1)
        invariant forall k :: 0 <= k < |all| ==> all[k] == GeneratedAt(k)
      {
        for q: nat := 3 to 9
          invariant |all| == 12 * (c - 1) + 6 * (s - 1) + (q - 3)
          invariant forall k :: 0 <= k < |all| ==> all[k] == GeneratedAt(k)
        {
          GeneratedIndex(c, s, q);
          all := all + [ConfigurationOf(c, s, q)];
        }
      }
    }
    configs := SortByKey(all, ConfigurationKey);
    forall e
      ensures e in configs <==> ValidConfiguration(e)
    {
      if e in configs {
        assert e in multiset(all);
        var k :| 0 <= k < |all| && all[k] == e;
        GeneratedValid(k);
      }
      if ValidConfiguration(e) {
        var k := GeneratedComplete(e);
        assert all[k] == e;
        assert e in multiset(configs);
      }
    }
    forall i, j | 0 <= i < j < |all|
      ensures all[i] != all[j]
    {
      GeneratedDistinct(i, j);
    }
    PermutationKeepsNoDuplicates(all, configs);
    forall i, j | 0 <= i < j < |configs|
      ensures ConfigurationBefore(configs[i], configs[j])
    {
      assert configs[i] in configs && configs[j] in configs;
      KeyOrdersConfigurations(configs[i], configs[j]);
    }
  }

  /** The index of the first configuration with SizeX >= side, or |configs| when there is none. */
  function FirstAtLeast(configs: seq<TileImportConfiguration>, side: int): (k: nat)
    ensures k <= |configs|
    ensures forall j :: 0 <= j < k ==> configs[j].sizeX < side
    ensures k < |configs| ==> configs[k].sizeX >= side
  {
    if configs == [] || configs[0].sizeX >= side then 0
    else 1 + FirstAtLeast(configs[1..], side)
  }

  /**
   * The square tile side: one less than the first configuration at least as
   * large as the tile, or the tile side itself when none is.
   */
  method SquareTileSide(configs: seq<TileImportConfiguration>, side: int) returns (r: int)
    ensures var k := FirstAtLeast(configs, side);
            r == if k < |configs| then configs[k].sizeX - 1 else side
  {
    r := side;
    var i := 0;
    while i < |configs|
      invariant 0 <= i <= |configs|
      invariant forall j :: 0 <= j < i ==> configs[j].sizeX < side
    {
      if configs[i].sizeX >= side {
        r := configs[i].sizeX - 1;
        FirstIsFirst(configs, side, i);
        return;
      }
      i := i + 1;
    }
    FirstIsFirst(configs, side, |configs|);
  }

  /** FirstAtLeast is the only index with nothing large enough before it. */
  lemma FirstIsFirst(configs: seq<TileImportConfiguration>, side: int, i: nat)
    requires i <= |configs|
    requires forall j :: 0 <= j < i ==> configs[j].sizeX < side
    requires i < |configs| ==> configs[i].sizeX >= side
    ensures FirstAtLeast(configs, side) == i
  {
  }

  /**
   * In the sorted configurations, a square side that was changed is one less
   * than the smallest configuration size that holds the tile.
   */
  lemma {:induction false} SquareSideIsSmallestFit(configs: seq<TileImportConfiguration>, side: int)
    requires ConfigurationsSorted(configs)
    requires FirstAtLeast(configs, side) < |configs|
    ensures configs[FirstAtLeast(configs, side)].sizeX >= side
    ensures forall j :: 0 <= j < |configs| && configs[j].sizeX >= side
                        ==> configs[j].sizeX >= configs[FirstAtLeast(configs, side)].sizeX
  {
    var k := FirstAtLeast(configs, side);
    forall j | 0 <= j < |configs| && configs[j].sizeX >= side
      ensures configs[j].sizeX >= configs[k].sizeX
    {
      if j > k {
        assert ConfigurationBefore(configs[k], configs[j]);
      }
    }
  }

  /**
   * The smallest SizeX at least `side` among the configurations generated
   * at positions k..383, or None when none is large enough.
   */
  function MinFitFrom(k: nat, side: int): Option<int>
    decreases 384 - k
  {
    if k >= 384 then None
    else
      var e := GeneratedAt(k);
      var rest := MinFitFrom(k + 1, side);
      if e.sizeX < side then rest
      else if rest.Some? && rest.value < e.sizeX then rest
      else Some(e.sizeX)
  }

  lemma {:induction false} MinFitFromSpec(k: nat, side: int)
    ensures MinFitFrom(k, side).None? <==> forall j :: k <= j < 384 ==> GeneratedAt(j).sizeX < side
    ensures MinFitFrom(k, side).Some? ==>
      MinFitFrom(k, side).value >= side &&
      forall j :: k <= j < 384 && GeneratedAt(j).sizeX >= side ==> GeneratedAt(j).sizeX >= MinFitFrom(k, side).value
    decreases 384 - k
  {
    if k < 384 {
      MinFitFromSpec(k + 1, side);
    }
  }

  lemma {:induction false} MinFitWitness(k: nat, side: int) returns (j: nat)
    requires MinFitFrom(k, side).Some?
    ensures k <= j < 384 && GeneratedAt(j).sizeX == MinFitFrom(k, side).value
    decreases 384 - k
  {
    if k < 384 {
      var e := GeneratedAt(k);
      var rest := MinFitFrom(k + 1, side);
      if e.sizeX < side || (rest.Some? && rest.value < e.sizeX) {
        j := MinFitWitness(k + 1, side);
      } else {
        j := k;
      }
    }
  }

  /**
   * The square tile side for a tile of `side` pixels: one less than the
   * smallest configuration size that holds it, or `side` when none does.
   */
  function SquareSide(side: int): int
  {
    match MinFitFrom(0, side)
    case None => side
    case Some(m) => m - 1
  }

  /**
   * On the configurations GetSquareConfigurations returns, the first one at
   * least as large as the tile gives SquareSide.
   */
  lemma FirstFitIsSquareSide(configs: seq<TileImportConfiguration>, side: int)
    requires forall e :: e in configs <==> ValidConfiguration(e)
    requires ConfigurationsSorted(configs)
    ensures var k := FirstAtLeast(configs, side);
      SquareSide(side) == if k < |configs| then configs[k].sizeX - 1 else side
  {
    var k := FirstAtLeast(configs, side);
    MinFitFromSpec(0, side);
    if MinFitFrom(0, side).Some? {
      var j' := MinFitWitness(0, side);
      GeneratedValid(j');
      assert GeneratedAt(j') in configs;
    }
    if k < |configs| {
      assert configs[k] in configs;
      var j := GeneratedComplete(configs[k]);
      SquareSideIsSmallestFit(configs, side);
    }
  }

  // ---------------------------------------------------------- tile counts

  /** FMath::CeilToInt. */
  function CeilToInt(x: real): (n: int)
    ensures (n - 1) as real < x <= n as real
  {
    if x.Floor as real == x then x.Floor else x.Floor + 1
  }

  lemma DividedBound(total: real, n: int, desired: real)
    requires n >= 1 && desired > 0.0 && total / n as real > desired
    ensures n <= (total / desired).Floor
  {
    assert total > desired * n as real;
    assert total / desired > n as real;
  }

  /**
   * The PrepareImport tile-count loop: starting from `start` tiles, add one
   * while a tile would be wider than the desired size. It stops at the
   * first count whose tiles are at most the desired size.
   */
  method TilesAlong(total: real, start: int, desired: int) returns (n: int, divided: real)
    requires total >= 0.0 && start >= 1 && desired > 0
    ensures n >= start && divided == total / n as real
    ensures divided <= desired as real
    ensures n == start || total / (n - 1) as real > desired as real
  {
    n := start;
    divided := total / n as real;
    while divided > desired as real
      invariant n >= start && divided == total / n as real
      invariant n == start || total / (n - 1) as real > desired as real
      decreases (total / desired as real).Floor - n
    {
      DividedBound(total, n, desired as real);
      n := n + 1;
      divided := total / n as real;
    }
  }

  /** The landscape extents clamped to the cropped extents of the level. */
  function CropExtents(e: Extents, crop: Extents): (r: Extents)
    ensures r.left >= e.left && r.left >= crop.left && r.bottom >= e.bottom && r.bottom >= crop.bottom
    ensures r.right <= e.right && r.right <= crop.right && r.top <= e.top && r.top <= crop.top
    ensures r.left == e.left || r.left == crop.left
    ensures r.right == e.right || r.right == crop.right
    ensures r.top == e.top || r.top == crop.top
    ensures r.bottom == e.bottom || r.bottom == crop.bottom
  {
    Extents(Max(e.bottom, crop.bottom), Max(e.left, crop.left), Min(e.top, crop.top), Min(e.right, crop.right))
  }

  /** The tile's pixel size as PrepareImport reads it: GetRasterPixelSize without the sign. */
  function TilePixelSize(meterPerPixel: Vec3, options: RasterImportOptions): Vec3
  {
    RasterPixelSize(meterPerPixel, options.nativeRasterPixelSize, options.customRasterPixelSize, false)
  }

  /** The divisions of a follow-up import (Tiles not empty) are by nonzero values. */
  predicate FollowUpDefined(meterPerPixel: Vec3, options: RasterImportOptions, first: LandscapingInfo)
  {
    if options.resampleToFirstTile then
      var p := TilePixelSize(Vec3(first.meterPerPixelX, first.meterPerPixelY, 0.0), options);
      p.x != 0.0 && p.y != 0.0 && first.importResolution.x != 0 && first.importResolution.y != 0
    else
      var p := TilePixelSize(meterPerPixel, options);
      p.x != 0.0 && p.y != 0.0
      && CeilToInt(first.importResolution.x as real * first.meterPerPixelX / p.x) != 0
      && CeilToInt(first.importResolution.y as real * Abs(first.meterPerPixelY) / p.y) != 0
  }

  // --------------------------------------------------- pixel count limit

  const IntMax: int := 2147483647

  /** A 32-bit signed int product, wrapped as two's complement arithmetic does. */
  function Wrap32(v: int): (r: int)
    ensures -2147483648 <= r <= IntMax
    ensures -2147483648 <= v <= IntMax ==> r == v
  {
    (v + 2147483648) % 4294967296 - 2147483648
  }

  /**
   * The size check as written: PixelCount is TileSize.X * TileSize.Y in the
   * int32 components of FIntVector, so neither comparison with INT_MAX can hold.
   */
  predicate TileTooBigAsWritten(tileSize: IntVec, importAsMesh: bool)
  {
    var pixelCount := Wrap32(tileSize.x * tileSize.y);
    pixelCount > IntMax || (importAsMesh && Wrap32(pixelCount * 6) > IntMax)
  }

  lemma TileSizeCheckNeverFires(tileSize: IntVec, importAsMesh: bool)
    ensures !TileTooBigAsWritten(tileSize, importAsMesh)
  {
  }

  /** A 50000 x 50000 tile overflows an int32 pixel count, and the check as written lets it through. */
  lemma TileSizeCheckMissesOverflow()
    ensures TileTooBig(IntVec(50000, 50000), false)
    ensures !TileTooBigAsWritten(IntVec(50000, 50000), false)
  {
    TileSizeCheckNeverFires(IntVec(50000, 50000), false);
  }

  /** The intended check: the pixel count (six indices per pixel for a mesh) exceeds INT_MAX. */
  predicate TileTooBig(tileSize: IntVec, importAsMesh: bool)
  {
    tileSize.x * tileSize.y > IntMax || (importAsMesh && tileSize.x * tileSize.y * 6 > IntMax)
  }

  const TileTooBigError: string := "Tile size too big - cannot import."

  /**
   * The outcome of the first-import branch of PrepareImport's tile split:
   * the fewest tiles (from the current counts up) no wider than the desired
   * size, and the tile size in pixels; square tiles take SquareSide of the
   * X size on both axes.
   */
  predicate FirstImportSplit(widthX: real, widthY: real, startX: int, startY: int, pixel: Vec3, options: RasterImportOptions,
                             nx: int, ny: int, tileSize: IntVec)
    requires startX >= 1 && startY >= 1 && pixel.x != 0.0 && pixel.y != 0.0
  {
    && nx >= startX && ny >= startY
    && widthX / nx as real <= options.desiredMaxTileSize as real
    && widthY / ny as real <= options.desiredMaxTileSize as real
    && (nx == startX || widthX / (nx - 1) as real > options.desiredMaxTileSize as real)
    && (ny == startY || widthY / (ny - 1) as real > options.desiredMaxTileSize as real)
    && (options.squareTiles ==>
          var side := SquareSide(CeilToInt(widthX / nx as real / pixel.x));
          tileSize == IntVec(side, side))
    && (!options.squareTiles ==>
          tileSize == IntVec(CeilToInt(widthX / nx as real / pixel.x), CeilToInt(widthY / ny as real / pixel.y)))
  }

  method FirstImportTiles(widthX: real, widthY: real, startX: int, startY: int, pixel: Vec3, options: RasterImportOptions)
    returns (nx: int, ny: int, tileSize: IntVec)
    requires widthX >= 0.0 && widthY >= 0.0 && startX >= 1 && startY >= 1
    requires options.desiredMaxTileSize > 0 && pixel.x != 0.0 && pixel.y != 0.0
    ensures FirstImportSplit(widthX, widthY, startX, startY, pixel, options, nx, ny, tileSize)
  {
    var dividedX, dividedY;
    nx, dividedX := TilesAlong(widthX, startX, options.desiredMaxTileSize);
    ny, dividedY := TilesAlong(widthY, startY, options.desiredMaxTileSize);
    var tileX := CeilToInt(dividedX / pixel.x);
    var tileY: int;
    if options.squareTiles {
      var configs := GetSquareConfigurations();
      FirstFitIsSquareSide(configs, tileX);
      tileX := SquareTileSide(configs, tileX);
      tileY := tileX;
    } else {
      tileY := CeilToInt(dividedY / pixel.y);
    }
    tileSize := IntVec(tileX, tileY);
  }

  /**
   * The outcome of the follow-up branch of PrepareImport's tile split: the
   * first tile's size and pixel size when resampling to it, otherwise the
   * size that covers the first tile's ground at this landscape's pixel size;
   * then as many tiles as it takes to span the landscape.
   */
  predicate FollowUpSplit(widthX: real, widthY: real, meterPerPixel: Vec3, options: RasterImportOptions, first: LandscapingInfo,
                          mpp: Vec3, tileSize: IntVec, nx: int, ny: int)
    requires FollowUpDefined(meterPerPixel, options, first)
  {
    && (options.resampleToFirstTile ==>
          tileSize == first.importResolution && mpp == Vec3(first.meterPerPixelX, first.meterPerPixelY, 0.0))
    && (!options.resampleToFirstTile ==>
          var p := TilePixelSize(meterPerPixel, options);
          mpp == meterPerPixel
          && tileSize == IntVec(CeilToInt(first.importResolution.x as real * first.meterPerPixelX / p.x),
                                CeilToInt(first.importResolution.y as real * Abs(first.meterPerPixelY) / p.y)))
    && var pixel := TilePixelSize(mpp, options);
       && tileSize.x as real * pixel.x != 0.0 && tileSize.y as real * pixel.y != 0.0
       && nx == SpanCount(widthX, tileSize.x, pixel.x)
       && ny == SpanCount(widthY, tileSize.y, pixel.y)
  }

  method FollowUpTiles(widthX: real, widthY: real, meterPerPixel: Vec3, options: RasterImportOptions, first: LandscapingInfo)
    returns (mpp: Vec3, tileSize: IntVec, nx: int, ny: int)
    requires FollowUpDefined(meterPerPixel, options, first)
    ensures FollowUpSplit(widthX, widthY, meterPerPixel, options, first, mpp, tileSize, nx, ny)
  {
    mpp := meterPerPixel;
    var pixel := TilePixelSize(mpp, options);
    if options.resampleToFirstTile {
      tileSize := first.importResolution;
      mpp := Vec3(first.meterPerPixelX, first.meterPerPixelY, 0.0);
    } else {
      tileSize := IntVec(CeilToInt(first.importResolution.x as real * first.meterPerPixelX / pixel.x),
                         CeilToInt(first.importResolution.y as real * Abs(first.meterPerPixelY) / pixel.y));
    }
    pixel := TilePixelSize(mpp, options);
    NonzeroProduct(tileSize.x as real, pixel.x);
    NonzeroProduct(tileSize.y as real, pixel.y);
    nx := SpanCount(widthX, tileSize.x, pixel.x);
    ny := SpanCount(widthY, tileSize.y, pixel.y);
  }

  /** The width and height in metres of a landscape's extents. */
  function WidthX(e: Extents): real { Abs(e.right - e.left) }
  function WidthY(e: Extents): real { Abs(e.bottom - e.top) }

  /**
   * The tile split of one landscape in PrepareImport, up to its size check.
   * `cropTo` is the level's cropped extents when they are set; `firstTile` is
   * the first tile already in the level, None on a first import.
   */
  method SizeTiles(data: RasterLandscapeData, options: RasterImportOptions,
                   cropTo: Option<Extents>, firstTile: Option<LandscapingInfo>)
    returns (error: Option<string>)
    modifies data
    requires data.numberTilesX >= 1 && data.numberTilesY >= 1
    requires firstTile.None? ==> options.desiredMaxTileSize > 0
    requires firstTile.None? ==>
      TilePixelSize(data.meterPerPixel, options).x != 0.0 && TilePixelSize(data.meterPerPixel, options).y != 0.0
    requires firstTile.Some? ==> FollowUpDefined(data.meterPerPixel, options, firstTile.value)
    ensures data.rasterDatas == old(data.rasterDatas)
    ensures data.minAltitude == old(data.minAltitude) && data.maxAltitude == old(data.maxAltitude)
    ensures data.extents == (if cropTo.Some? then CropExtents(old(data.extents), cropTo.value) else old(data.extents))
    ensures firstTile.None? ==>
      data.meterPerPixel == old(data.meterPerPixel)
      && FirstImportSplit(WidthX(data.extents), WidthY(data.extents), old(data.numberTilesX), old(data.numberTilesY),
                          TilePixelSize(old(data.meterPerPixel), options), options,
                          data.numberTilesX, data.numberTilesY, data.tileSize)
    ensures firstTile.Some? ==>
      FollowUpSplit(WidthX(data.extents), WidthY(data.extents), old(data.meterPerPixel), options, firstTile.value,
                    data.meterPerPixel, data.tileSize, data.numberTilesX, data.numberTilesY)
    ensures error.Some? <==> TileTooBig(data.tileSize, options.importAsMesh)
    ensures error.Some? ==> error.value == TileTooBigError
  {
    var extents := data.extents;
    if cropTo.Some? {
      extents := CropExtents(extents, cropTo.value);
    }
    var mpp, tileSize, nx, ny := data.meterPerPixel, data.tileSize, data.numberTilesX, data.numberTilesY;
    if firstTile.None? {
      var pixel := TilePixelSize(mpp, options);
      nx, ny, tileSize := FirstImportTiles(WidthX(extents), WidthY(extents), nx, ny, pixel, options);
    } else {
      mpp, tileSize, nx, ny := FollowUpTiles(WidthX(extents), WidthY(extents), mpp, options, firstTile.value);
    }
    data.extents, data.meterPerPixel, data.tileSize, data.numberTilesX, data.numberTilesY := extents, mpp, tileSize, nx, ny;
    if TileTooBig(tileSize, options.importAsMesh) {
      return Some(TileTooBigError);
    }
    return None;
  }

  lemma NonzeroProduct(a: real, b: real)
    requires a != 0.0 && b != 0.0
    ensures a * b != 0.0
  {
  }

  /** The tile count of a follow-up import along one axis: tiles of `side` pixels of `pixel` metres over `width` metres, rounded up. */
  function SpanCount(width: real, side: int, pixel: real): int
    requires side as real * pixel != 0.0
  {
    CeilToInt(width / (side as real * pixel))
  }

  /** On a follow-up import the tiles together span the landscape's width, and one tile fewer would not. */
  lemma {:induction false} FollowUpTilesCover(width: real, side: int, pixel: real)
    requires width >= 0.0 && side as real * pixel > 0.0
    ensures SpanCount(width, side, pixel) as real * (side as real * pixel) >= width
    ensures (SpanCount(width, side, pixel) - 1) as real * (side as real * pixel) < width
  {
    CeilSpan(width, side as real * pixel);
  }

  /** w / t rounded up, times t, reaches w; one less falls short. */
  lemma CeilSpan(w: real, t: real)
    requires w >= 0.0 && t > 0.0
    ensures CeilToInt(w / t) as real * t >= w
    ensures (CeilToInt(w / t) - 1) as real * t < w
  {
    var c := CeilToInt(w / t) as real;
    SpanBounds(w, t, c);
    assert (CeilToInt(w / t) - 1) as real == c - 1.0;
  }

  lemma SpanBounds(w: real, t: real, c: real)
    requires t > 0.0 && c - 1.0 < w / t <= c
    ensures c * t >= w
    ensures (c - 1.0) * t < w
  {
    SpanUpper(w, t, c);
    SpanLower(w, t, c);
  }

  lemma SpanUpper(w: real, t: real, c: real)
    requires t > 0.0 && w / t <= c
    ensures c * t >= w
  {
    DivTimes(w, t);
    RealMulLe(w / t, c, t);
  }

  lemma SpanLower(w: real, t: real, c: real)
    requires t > 0.0 && c - 1.0 < w / t
    ensures (c - 1.0) * t < w
  {
    DivTimes(w, t);
    RealMulLess(c - 1.0, w / t, t);
  }

  lemma DivTimes(w: real, t: real)
    requires t != 0.0
    ensures w / t * t == w
  {
  }

  lemma RealMulLess(a: real, b: real, c: real)
    requires a < b && c > 0.0
    ensures a * c < b * c
  {
  }

  lemma RealMulLe(a: real, b: real, c: real)
    requires a <= b && c > 0.0
    ensures a * c <= b * c
  {
  }

  // ----------------------------------------------------- height quantising

  /** The 16-bit height range an import maps the altitudes onto, and whether it is the high-detail one. */
  datatype HeightRange = HeightRange(newMin: int, newMax: int, highDetail: bool)

  /** double to int conversion: truncation toward zero. */
  function TruncToInt(x: real): (n: int)
    ensures x >= 0.0 ==> n == x.Floor
    ensures Abs(x - n as real) < 1.0
  {
    if x >= 0.0 then x.Floor else -((-x).Floor)
  }

  /** The number of levels the user's Z scale needs: each level is ZScale/128 cm. */
  function CustomLevels(maxMinDiff: real, zScale: real): int
    requires zScale != 0.0
  {
    TruncToInt(maxMinDiff / zScale * 100.0 * 128.0)
  }

  /**
   * The height range of Import: 16383..49152 for high detail; otherwise as
   * many levels as the Z scale needs, centred in 0..65535, falling back to
   * high detail above 60000 levels.
   */
  function ImportHeightRange(maxMinDiff: real, options: RasterImportOptions): (r: HeightRange)
    requires !options.highDetailZScale ==> options.zScale != 0.0
    ensures options.highDetailZScale ==> r == HeightRange(16383, 49152, true)
    ensures !options.highDetailZScale && CustomLevels(maxMinDiff, options.zScale) > 60000
            ==> r == HeightRange(16383, 49152, true)
    ensures !options.highDetailZScale && CustomLevels(maxMinDiff, options.zScale) <= 60000 ==>
      && !r.highDetail
      && r.newMin + r.newMax == 65535
      && (r.newMax - r.newMin == CustomLevels(maxMinDiff, options.zScale)
          || r.newMax - r.newMin == CustomLevels(maxMinDiff, options.zScale) + 1)
    ensures maxMinDiff >= 0.0 && (options.highDetailZScale || options.zScale > 0.0) ==>
      0 <= r.newMin <= r.newMax <= 65535
  {
    if options.highDetailZScale then HeightRange(16383, 49152, true)
    else
      var levels := CustomLevels(maxMinDiff, options.zScale);
      if levels > 60000 then HeightRange(16383, 49152, true)
      else
        var remainder := 65535 - levels;
        HeightRange(remainder / 2, 65535 - remainder / 2, false)
  }

  /** The custom range is within one level of the levels the Z scale needs. */
  lemma CustomRangeMatchesZScale(maxMinDiff: real, options: RasterImportOptions)
    requires !options.highDetailZScale && options.zScale > 0.0 && maxMinDiff >= 0.0
    requires CustomLevels(maxMinDiff, options.zScale) <= 60000
    ensures var r := ImportHeightRange(maxMinDiff, options);
            var needed := maxMinDiff / options.zScale * 100.0 * 128.0;
            needed - 1.0 < (r.newMax - r.newMin) as real < needed + 2.0
  {
  }

  /** The 16-bit height of one altitude: its position in the altitude range scaled onto the height range. */
  function Quantise(h: real, minAltitude: real, maxMinDiff: real, r: HeightRange): real
    requires maxMinDiff != 0.0
  {
    (r.newMax - r.newMin) as real * (h - minAltitude) / maxMinDiff + r.newMin as real
  }

  /** Altitudes in range land in the height range; the lowest on NewMin and the highest on NewMax. */
  lemma {:induction false} QuantiseInRange(h: real, minAltitude: real, maxMinDiff: real, r: HeightRange)
    requires maxMinDiff > 0.0 && minAltitude <= h <= minAltitude + maxMinDiff
    requires r.newMin <= r.newMax
    ensures r.newMin as real <= Quantise(h, minAltitude, maxMinDiff, r) <= r.newMax as real
    ensures Quantise(minAltitude, minAltitude, maxMinDiff, r) == r.newMin as real
    ensures Quantise(minAltitude + maxMinDiff, minAltitude, maxMinDiff, r) == r.newMax as real
  {
    var range := (r.newMax - r.newMin) as real;
    var t := (h - minAltitude) / maxMinDiff;
    UnitQuotient(h - minAltitude, maxMinDiff);
    ScaledQuotient(range, h - minAltitude, maxMinDiff);
    MulFraction(t, range);
    ScaledQuotient(range, 0.0, maxMinDiff);
    ScaledQuotient(range, maxMinDiff, maxMinDiff);
  }

  lemma UnitQuotient(n: real, d: real)
    requires d > 0.0 && 0.0 <= n <= d
    ensures 0.0 <= n / d <= 1.0
  {
    RealMulLe(n / d, 1.0, d);
  }

  lemma ScaledQuotient(k: real, n: real, d: real)
    requires d != 0.0
    ensures k * n / d == Mul(n / d, k)
    ensures n == 0.0 ==> k * n / d == 0.0
    ensures n == d ==> k * n / d == k
  {
  }

  /** The tile's altitudes lie within its altitude range. */
  ghost predicate WithinAltitudes(heightInfo: seq<seq<real>>, res: IntVec, minAltitude: real, maxMinDiff: real)
  {
    && res.x >= 0 && res.y >= 0 && |heightInfo| >= res.y
    && (forall y :: 0 <= y < res.y ==> |heightInfo[y]| >= res.x)
    && (forall y, x :: 0 <= y < res.y && 0 <= x < res.x
          ==> minAltitude <= heightInfo[y][x] <= minAltitude + maxMinDiff)
  }

  /** The 16-bit height stored for one altitude (the double-to-uint16 conversion truncates). */
  function Height(h: real, minAltitude: real, maxMinDiff: real, r: HeightRange): int
    requires maxMinDiff != 0.0
  {
    Quantise(h, minAltitude, maxMinDiff, r).Floor
  }

  /** Heights of altitudes in range stay within the height range. */
  lemma HeightInRange(h: real, minAltitude: real, maxMinDiff: real, r: HeightRange)
    requires maxMinDiff > 0.0 && minAltitude <= h <= minAltitude + maxMinDiff
    requires r.newMin <= r.newMax
    ensures r.newMin <= Height(h, minAltitude, maxMinDiff, r) <= r.newMax
  {
    QuantiseInRange(h, minAltitude, maxMinDiff, r);
  }

  /** The heights of the whole tile, row by row: cell (x, y) is the height of altitude heightInfo[y][x]. */
  function HeightGrid(heightInfo: seq<seq<real>>, res: IntVec, minAltitude: real, maxMinDiff: real, r: HeightRange)
    : (g: seq<seq<int>>)
    requires maxMinDiff > 0.0 && r.newMin <= r.newMax
    requires WithinAltitudes(heightInfo, res, minAltitude, maxMinDiff)
    ensures |g| == res.y
    ensures forall y :: 0 <= y < res.y ==> |g[y]| == res.x
    ensures forall y, x :: 0 <= y < res.y && 0 <= x < res.x ==>
              g[y][x] == Height(heightInfo[y][x], minAltitude, maxMinDiff, r) && r.newMin <= g[y][x] <= r.newMax
  {
    HeightsInRange(heightInfo, res, minAltitude, maxMinDiff, r);
    seq(res.y, y requires 0 <= y < res.y =>
      seq(res.x, x requires 0 <= x < res.x => Height(heightInfo[y][x], minAltitude, maxMinDiff, r)))
  }

  lemma HeightsInRange(heightInfo: seq<seq<real>>, res: IntVec, minAltitude: real, maxMinDiff: real, r: HeightRange)
    requires maxMinDiff > 0.0 && r.newMin <= r.newMax
    requires WithinAltitudes(heightInfo, res, minAltitude, maxMinDiff)
    ensures forall y, x :: 0 <= y < res.y && 0 <= x < res.x ==>
              r.newMin <= Height(heightInfo[y][x], minAltitude, maxMinDiff, r) <= r.newMax
  {
    forall y, x | 0 <= y < res.y && 0 <= x < res.x
      ensures r.newMin <= Height(heightInfo[y][x], minAltitude, maxMinDiff, r) <= r.newMax
    {
      HeightInRange(heightInfo[y][x], minAltitude, maxMinDiff, r);
    }
  }

  /**
   * The quantising part of Import (smoothing is not modelled): ResX*ResY
   * samples in row-major order (so sample y * ResX + x is HeightGrid's cell
   * (x, y), by FlattenCell), all within the height range. The tile is
   * returned with its scale recomputed when a custom Z scale fell back to
   * high detail.
   */
  method Import(heightInfo: seq<seq<real>>, res: IntVec, tile: LandscapingInfo, options: RasterImportOptions)
    returns (data: seq<int>, newTile: LandscapingInfo)
    requires tile.maxAltitude > tile.minAltitude
    requires options.highDetailZScale || options.zScale > 0.0
    requires WithinAltitudes(heightInfo, res, tile.minAltitude, tile.maxAltitude - tile.minAltitude)
    requires tile.landscapeResolution.x != 0 && tile.landscapeResolution.y != 0
    ensures var r := ImportHeightRange(tile.maxAltitude - tile.minAltitude, options);
      && |data| == res.x * res.y
      && data == Flatten(HeightGrid(heightInfo, res, tile.minAltitude, tile.maxAltitude - tile.minAltitude, r))
      && (forall k :: 0 <= k < |data| ==> 0 <= r.newMin <= data[k] <= r.newMax <= 65535)
      && newTile == (if r.highDetail && !options.highDetailZScale
                     then tile.CalculateScale(options.(highDetailZScale := true)) else tile)
  {
    var diff := tile.maxAltitude - tile.minAltitude;
    var r := ImportHeightRange(diff, options);
    newTile := tile;
    if r.highDetail && !options.highDetailZScale {
      newTile := tile.CalculateScale(options.(highDetailZScale := true));
    }
    data := SampleRows(heightInfo, res, tile.minAltitude, diff, r);
  }

  /** The row loops of Import: the tile's heights laid out row after row. */
  method SampleRows(heightInfo: seq<seq<real>>, res: IntVec, minAltitude: real, maxMinDiff: real, r: HeightRange)
    returns (data: seq<int>)
    requires maxMinDiff > 0.0 && r.newMin <= r.newMax
    requires WithinAltitudes(heightInfo, res, minAltitude, maxMinDiff)
    ensures |data| == res.x * res.y
    ensures data == Flatten(HeightGrid(heightInfo, res, minAltitude, maxMinDiff, r))
    ensures forall k :: 0 <= k < |data| ==> r.newMin <= data[k] <= r.newMax
  {
    ghost var grid := HeightGrid(heightInfo, res, minAltitude, maxMinDiff, r);
    data := [];
    var y := 0;
    while y < res.y
      invariant 0 <= y <= res.y && data == Flatten(grid[..y])
      invariant forall k :: 0 <= k < |data| ==> r.newMin <= data[k] <= r.newMax
    {
      var row := SampleRow(heightInfo[y], res.x, minAltitude, maxMinDiff, r);
      assert row == grid[y];
      assert grid[..y + 1][..y] == grid[..y];
      data := data + row;
      y := y + 1;
    }
    assert grid[..y] == grid;
    FlattenLength(grid, res.x);
  }

  /** One row of Import's loops. */
  method SampleRow(heights: seq<real>, width: int, minAltitude: real, maxMinDiff: real, r: HeightRange)
    returns (row: seq<int>)
    requires maxMinDiff > 0.0 && r.newMin <= r.newMax
    requires 0 <= width <= |heights|
    requires forall x :: 0 <= x < width ==> minAltitude <= heights[x] <= minAltitude + maxMinDiff
    ensures |row| == width
    ensures forall x :: 0 <= x < width ==>
              row[x] == Height(heights[x], minAltitude, maxMinDiff, r) && r.newMin <= row[x] <= r.newMax
  {
    row := [];
    var x := 0;
    while x < width
      invariant 0 <= x <= width && |row| == x
      invariant forall i :: 0 <= i < x ==>
                  row[i] == Height(heights[i], minAltitude, maxMinDiff, r) && r.newMin <= row[i] <= r.newMax
    {
      HeightInRange(heights[x], minAltitude, maxMinDiff, r);
      row := row + [Height(heights[x], minAltitude, maxMinDiff, r)];
      x := x + 1;
    }
  }

  // ---------------------------------------------------- merge order

  /** How coarse a record is: larger pixels sort first. */
  function Coarseness(d: RasterData): real
  {
    -Abs(d.meterPerPixel.x)
  }

  /**
   * The order MergeOverlapping merges records in: coarsest to finest by
   * |MeterPerPixel.X|, so the finer records are drawn on top.
   */
  method SortCoarsestFirst(datas: seq<RasterData>) returns (sorted: seq<RasterData>)
    ensures multiset(sorted) == multiset(datas)
    ensures forall i, j :: 0 <= i < j < |sorted|
              ==> Abs(sorted[i].meterPerPixel.x) >= Abs(sorted[j].meterPerPixel.x)
  {
    if |datas| > 1 {
      sorted := SortByKey(datas, Coarseness);
    } else {
      sorted := datas;
    }
  }

  // ---------------------------------------------------- decal tiling

  const MaxDecalSize: int := 8192

  /** The decal tile-count loop: one more tile while a tile would exceed 8192 pixels. */
  method DecalTilesAlong(size: int) returns (n: int)
    requires size >= 0
    ensures n >= 1 && size / n <= MaxDecalSize
    ensures n == 1 || size / (n - 1) > MaxDecalSize
  {
    n := 1;
    while size / n > MaxDecalSize
      invariant n >= 1
      invariant n == 1 || size / (n - 1) > MaxDecalSize
      decreases size - n
    {
      MulMono(2, size / n, n);
      n := n + 1;
    }
  }

  /** One cut of satellite imagery with the tiling it belongs to. */
  datatype ColorData = ColorData(data: seq<Color>, width: int, height: int, baseFilename: string,
                                 numberTilesX: int, numberTilesY: int)

  /** The colour band is at least width x height. */
  predicate CoversImage(band: seq<seq<Color>>, width: int, height: int)
  {
    width >= 0 && height >= 0 && |band| >= height && forall y :: 0 <= y < height ==> |band[y]| >= width
  }

  /** The tileWidth x tileHeight window at (xOffset, yOffset), row by row. */
  function Window(band: seq<seq<Color>>, xOffset: nat, yOffset: nat, tileWidth: nat, tileHeight: nat): (w: seq<Color>)
    requires yOffset + tileHeight <= |band|
    requires forall y :: yOffset <= y < yOffset + tileHeight ==> xOffset + tileWidth <= |band[y]|
    ensures |w| == tileHeight * tileWidth
  {
    if tileHeight == 0 then []
    else Window(band, xOffset, yOffset, tileWidth, tileHeight - 1)
         + band[yOffset + tileHeight - 1][xOffset..xOffset + tileWidth]
  }

  /** Pixel (x, y) of a window is pixel (x + xOffset, y + yOffset) of the band. */
  lemma {:induction false} WindowPixel(band: seq<seq<Color>>, xOffset: nat, yOffset: nat,
                                       tileWidth: nat, tileHeight: nat, x: nat, y: nat)
    requires yOffset + tileHeight <= |band|
    requires forall y' :: yOffset <= y' < yOffset + tileHeight ==> xOffset + tileWidth <= |band[y']|
    requires x < tileWidth && y < tileHeight
    ensures y * tileWidth + x < tileHeight * tileWidth
    ensures Window(band, xOffset, yOffset, tileWidth, tileHeight)[y * tileWidth + x]
            == band[y + yOffset][x + xOffset]
  {
    RowBound(y, tileHeight, tileWidth);
    var h := tileHeight - 1;
    if y < h {
      WindowPixel(band, xOffset, yOffset, tileWidth, h, x, y);
      RowBound(y, h, tileWidth);
    } else {
      assert |Window(band, xOffset, yOffset, tileWidth, h)| == y * tileWidth;
    }
  }

  /** Every one of n equal tiles of width / n pixels fits within width. */
  predicate TilesFit(width: int, n: int)
    requires n >= 1
  {
    forall i :: 0 <= i < n ==> i * (width / n) + width / n <= width
  }

  lemma EqualTilesFit(width: int, n: int)
    requires width >= 0 && n >= 1
    ensures TilesFit(width, n)
  {
    forall i | 0 <= i < n
      ensures i * (width / n) + width / n <= width
    {
      MulMono(i + 1, n, width / n);
      assert n * (width / n) <= width;
    }
  }

  /** Tile (xTile, yTile) of the decal tiling as GetColorData fills it. */
  function ExpectedTile(band: seq<seq<Color>>, width: int, height: int, nx: int, ny: int,
                        xTile: int, yTile: int, baseFilename: string): ColorData
    requires CoversImage(band, width, height) && nx >= 1 && ny >= 1
    requires TilesFit(width, nx) && TilesFit(height, ny)
    requires 0 <= xTile < nx && 0 <= yTile < ny
  {
    var tw, th := width / nx, height / ny;
    var x0, y0 := xTile * tw, yTile * th;
    assert tw >= 0 && th >= 0 && x0 >= 0 && y0 >= 0 by {
      NonNegativeProduct(xTile, tw);
      NonNegativeProduct(yTile, th);
    }
    assert x0 + tw <= width && y0 + th <= height;
    assert forall y :: y0 <= y < y0 + th ==> x0 + tw <= |band[y]|;
    ColorData(Window(band, x0, y0, tw, th), tw, th, baseFilename, nx, ny)
  }

  lemma NonNegativeProduct(a: int, b: int)
    requires a >= 0 && b >= 0
    ensures a * b >= 0
  {
  }

  /** All tiles of the decal tiling, row by row: tile (xTile, yTile) is ExpectedTile. */
  function TileGrid(band: seq<seq<Color>>, width: int, height: int, nx: int, ny: int, baseFilename: string)
    : (g: seq<seq<ColorData>>)
    requires CoversImage(band, width, height) && nx >= 1 && ny >= 1
    requires TilesFit(width, nx) && TilesFit(height, ny)
    ensures |g| == ny
    ensures forall y :: 0 <= y < ny ==> |g[y]| == nx
    ensures forall y, x :: 0 <= y < ny && 0 <= x < nx ==>
              g[y][x] == ExpectedTile(band, width, height, nx, ny, x, y, baseFilename)
  {
    seq(ny, y requires 0 <= y < ny =>
      seq(nx, x requires 0 <= x < nx => ExpectedTile(band, width, height, nx, ny, x, y, baseFilename)))
  }

  /** Tile number yTile * NumberTilesX + xTile of the flattened tiling is tile (xTile, yTile). */
  lemma TileNumbering(band: seq<seq<Color>>, width: int, height: int, nx: int, ny: int, baseFilename: string,
                      xTile: nat, yTile: nat)
    requires CoversImage(band, width, height) && nx >= 1 && ny >= 1
    requires TilesFit(width, nx) && TilesFit(height, ny)
    requires xTile < nx && yTile < ny
    ensures var tiles := Flatten(TileGrid(band, width, height, nx, ny, baseFilename));
      && |tiles| == nx * ny
      && yTile * nx + xTile < |tiles|
      && tiles[yTile * nx + xTile] == ExpectedTile(band, width, height, nx, ny, xTile, yTile, baseFilename)
  {
    FlattenCell(TileGrid(band, width, height, nx, ny, baseFilename), nx, yTile, xTile);
  }

  /**
   * The tiling of GetColorData: with decal import each tile is at most 8192
   * pixels wide and high (and the fewest tiles that achieve it); the tiles are
   * cut row by row, each a TileWidth x TileHeight window of the image, so
   * that tile yTile * NumberTilesX + xTile is tile (xTile, yTile) (TileNumbering).
   */
  method GetColorData(band: seq<seq<Color>>, width: int, height: int, asDecal: bool, baseFilename: string)
    returns (nx: int, ny: int, tiles: seq<ColorData>)
    requires CoversImage(band, width, height)
    ensures nx >= 1 && ny >= 1 && |tiles| == nx * ny
    ensures !asDecal ==> nx == 1 && ny == 1
    ensures asDecal ==> width / nx <= MaxDecalSize && height / ny <= MaxDecalSize
    ensures asDecal ==> (nx == 1 || width / (nx - 1) > MaxDecalSize) && (ny == 1 || height / (ny - 1) > MaxDecalSize)
    ensures TilesFit(width, nx) && TilesFit(height, ny)
    ensures tiles == Flatten(TileGrid(band, width, height, nx, ny, baseFilename))
  {
    nx, ny := 1, 1;
    if asDecal {
      nx := DecalTilesAlong(width);
      ny := DecalTilesAlong(height);
    }
    EqualTilesFit(width, nx);
    EqualTilesFit(height, ny);
    ghost var grid := TileGrid(band, width, height, nx, ny, baseFilename);
    tiles := [];
    var yTile := 0;
    while yTile < ny
      invariant 0 <= yTile <= ny && tiles == Flatten(grid[..yTile])
    {
      var row := CutTileRow(band, width, height, nx, ny, yTile, baseFilename);
      assert row == grid[yTile];
      assert grid[..yTile + 1][..yTile] == grid[..yTile];
      tiles := tiles + row;
      yTile := yTile + 1;
    }
    assert grid[..yTile] == grid;
    FlattenLength(grid, nx);
  }

  /** The inner loop of GetColorData: the tiles of one row of the tiling, left to right. */
  method CutTileRow(band: seq<seq<Color>>, width: int, height: int, nx: int, ny: int, yTile: int, baseFilename: string)
    returns (row: seq<ColorData>)
    requires CoversImage(band, width, height) && nx >= 1 && ny >= 1
    requires TilesFit(width, nx) && TilesFit(height, ny)
    requires 0 <= yTile < ny
    ensures |row| == nx
    ensures forall x :: 0 <= x < nx ==> row[x] == ExpectedTile(band, width, height, nx, ny, x, yTile, baseFilename)
  {
    var tw, th := width / nx, height / ny;
    row := [];
    var xTile := 0;
    while xTile < nx
      invariant 0 <= xTile <= nx && |row| == xTile
      invariant forall x :: 0 <= x < xTile ==> row[x] == ExpectedTile(band, width, height, nx, ny, x, yTile, baseFilename)
    {
      var w := CutWindow(band, xTile * tw, yTile * th, tw, th);
      row := row + [ColorData(w, tw, th, baseFilename, nx, ny)];
      xTile := xTile + 1;
    }
  }

  /** The pixel copy loops of one decal tile. */
  method CutWindow(band: seq<seq<Color>>, xOffset: nat, yOffset: nat, tileWidth: nat, tileHeight: nat)
    returns (data: seq<Color>)
    requires yOffset + tileHeight <= |band|
    requires forall y :: yOffset <= y < yOffset + tileHeight ==> xOffset + tileWidth <= |band[y]|
    ensures data == Window(band, xOffset, yOffset, tileWidth, tileHeight)
  {
    data := [];
    var y := 0;
    while y < tileHeight
      invariant 0 <= y <= tileHeight
      invariant data == Window(band, xOffset, yOffset, tileWidth, y)
    {
      var row: seq<Color> := [];
      var x := 0;
      while x < tileWidth
        invariant 0 <= x <= tileWidth
        invariant row == band[y + yOffset][xOffset..xOffset + x]
      {
        row := row + [band[y + yOffset][x + xOffset]];
        x := x + 1;
      }
      data := data + row;
      y := y + 1;
    }
  }
}
