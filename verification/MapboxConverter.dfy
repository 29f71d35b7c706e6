/**
 * FMapboxConverter: the "slippy map" tile numbering of OpenStreetMap and
 * Mapbox. At zoom z the world is 2^z tiles wide; tile x spans the longitudes
 * TileXToLon(x, z) .. TileXToLon(x + 1, z). The latitude conversions
 * (LatToTileY, TileYToLat) use tan/asinh/atan/exp and are not part of this
 * model; code that needs them takes them as function parameters.
 */
module MapboxConverter {
  import opened Common

  /** Zoom levels for which `1 << z` is a positive 32-bit int. */
  predicate ZoomInRange(z: int)
  {
    0 <= z <= 30
  }

  /** The number of tiles along one axis at zoom z, `1 << z`. */
  function TilesAtZoom(z: nat): (n: nat)
    ensures n >= 1
  {
    Pow2(z)
  }

  /** The column of the tile holding longitude lon: floor((lon + 180) / 360 * 2^z). */
  function LonToTileX(lon: real, z: nat): int
    requires ZoomInRange(z)
  {
    ((lon + 180.0) / 360.0 * TilesAtZoom(z) as real).Floor
  }

  /** The western edge of tile column x: x / 2^z * 360 - 180. */
  function TileXToLon(x: int, z: nat): real
    requires ZoomInRange(z)
  {
    x as real / TilesAtZoom(z) as real * 360.0 - 180.0
  }

  /** Column 0 starts at the antimeridian and column 2^z ends the world at 180 degrees. */
  lemma TileXToLonEnds(z: nat)
    requires ZoomInRange(z)
    ensures TileXToLon(0, z) == -180.0
    ensures TileXToLon(TilesAtZoom(z), z) == 180.0
  {
    Edges(TilesAtZoom(z) as real);
  }

  lemma Edges(n: real)
    requires n >= 1.0
    ensures 0.0 / n * 360.0 - 180.0 == -180.0
    ensures n / n * 360.0 - 180.0 == 180.0
  {
    var q := n / n;
    assert q * n == n;
    assert q == 1.0;
  }

  /** Later columns start further east. */
  lemma TileXToLonIncreasing(x: int, y: int, z: nat)
    requires ZoomInRange(z) && x < y
    ensures TileXToLon(x, z) < TileXToLon(y, z)
  {
    var n := TilesAtZoom(z) as real;
    DivMonotone(x as real, y as real, n);
  }

  lemma DivMonotone(a: real, b: real, n: real)
    requires a < b && n > 0.0
    ensures a / n < b / n
  {
  }

  /** Every longitude of [-180, 180) falls in one of the 2^z columns. */
  lemma LonToTileXInRange(lon: real, z: nat)
    requires ZoomInRange(z) && -180.0 <= lon < 180.0
    ensures 0 <= LonToTileX(lon, z) < TilesAtZoom(z)
  {
    ColumnInRange(lon, TilesAtZoom(z));
  }

  lemma ColumnInRange(lon: real, n: nat)
    requires -180.0 <= lon < 180.0 && n >= 1
    ensures 0 <= ((lon + 180.0) / 360.0 * n as real).Floor < n
  {
    var f := (lon + 180.0) / 360.0;
    FractionTimes(f, n as real);
    FloorBelow(f * n as real, n);
  }

  lemma FloorBelow(t: real, n: int)
    requires 0.0 <= t < n as real
    ensures 0 <= t.Floor < n
  {
  }

  lemma FractionTimes(f: real, n: real)
    requires 0.0 <= f < 1.0 && n >= 1.0
    ensures 0.0 <= f * n < n
  {
  }

  /** The column found for lon is the one whose span holds lon. */
  lemma LonInItsTile(lon: real, z: nat)
    requires ZoomInRange(z)
    ensures TileXToLon(LonToTileX(lon, z), z) <= lon < TileXToLon(LonToTileX(lon, z) + 1, z)
  {
    var n := TilesAtZoom(z) as real;
    var t := (lon + 180.0) / 360.0 * n;
    var x := LonToTileX(lon, z);
    assert x as real <= t < x as real + 1.0;
    ScaleBack(x as real, t, n);
    ScaleBack(t, x as real + 1.0, n);
    assert t / n * 360.0 - 180.0 == lon;
  }

  lemma ScaleBack(a: real, b: real, n: real)
    requires a <= b && n > 0.0
    ensures a / n * 360.0 - 180.0 <= b / n * 360.0 - 180.0
    ensures a < b ==> a / n * 360.0 - 180.0 < b / n * 360.0 - 180.0
  {
  }

  /** The western edge of column x lies in column x: the two conversions are inverse on tile numbers. */
  lemma TileXRoundTrip(x: int, z: nat)
    requires ZoomInRange(z)
    ensures LonToTileX(TileXToLon(x, z), z) == x
  {
    var n := TilesAtZoom(z) as real;
    assert (x as real / n * 360.0 - 180.0 + 180.0) / 360.0 * n == x as real;
  }

  /** LonToTileX never decreases as the longitude grows. */
  lemma LonToTileXMonotone(a: real, b: real, z: nat)
    requires ZoomInRange(z) && a <= b
    ensures LonToTileX(a, z) <= LonToTileX(b, z)
  {
    var n := TilesAtZoom(z) as real;
    assert (a + 180.0) / 360.0 <= (b + 180.0) / 360.0;
    MulMonotone((a + 180.0) / 360.0, (b + 180.0) / 360.0, n);
  }

  lemma MulMonotone(a: real, b: real, n: real)
    requires a <= b && n >= 0.0
    ensures a * n <= b * n
  {
  }
}
