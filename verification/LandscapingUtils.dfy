/**
 * LandscapingUtils: the bounding box of a point list (GetBounds), the
 * bilinear resampling of a row-major sample grid (ResampleData) and the
 * slippy-map tile-to-longitude formula shared with the Mapbox plugin.
 *
 * ResampleData is a template used with uint8 and uint16 samples; the engine's
 * Lerp on an unsigned integer type truncates `A + Alpha * (B - A)` back to the
 * type, which for nonnegative values is the floor. Samples are modelled as
 * `nat` and the float scale factors as exact reals.
 */
module LandscapingUtils {
  import opened Common
  import opened LandscapingStructs
  import MapboxConverter

  // ------------------------------------------------------------- GetBounds

  /** Folds every point into an initially empty box (FBox(ForceInit) += Point). */
  method GetBounds(points: seq<Vec3>) returns (b: Box)
    ensures b == BoxOf(points)
    ensures b.isValid <==> |points| > 0
    ensures forall i :: 0 <= i < |points| ==> b.IsInsideOrOn(points[i])
  {
    b := InitBox;
    var i := 0;
    while i < |points|
      invariant 0 <= i <= |points|
      invariant b == BoxOf(points[..i])
    {
      assert points[..i + 1][..i] == points[..i];
      b := b.Add(points[i]);
      i := i + 1;
    }
    assert points[..i] == points;
    forall k | 0 <= k < |points|
      ensures b.IsInsideOrOn(points[k])
    {
      BoxOfContains(points, k);
    }
  }

  /** No smaller box holds all points: any box that does encloses both corners of BoxOf. */
  lemma {:induction false} BoundsSmallest(points: seq<Vec3>, c: Box)
    requires |points| > 0
    requires forall i :: 0 <= i < |points| ==> c.IsInsideOrOn(points[i])
    ensures c.IsInsideOrOn(BoxOf(points).min) && c.IsInsideOrOn(BoxOf(points).max)
  {
    var n := |points| - 1;
    if n > 0 {
      forall i | 0 <= i < n
        ensures c.IsInsideOrOn(points[..n][i])
      {
        assert points[..n][i] == points[i];
      }
      BoundsSmallest(points[..n], c);
    }
  }

  // ------------------------------------------------------------- ResampleData

  /** The engine's Lerp on an unsigned sample: the interpolated value truncated back to an integer. */
  function Lerp(a: nat, b: nat, t: real): (r: nat)
    requires 0.0 <= t < 1.0
    ensures (a <= b ==> a <= r <= b) && (b <= a ==> b <= r <= a)
    ensures t == 0.0 ==> r == a
  {
    var v := a as real + t * (b as real - a as real);
    LerpBetween(a as real, b as real, t);
    FloorBetween(v, MinInt(a, b), MaxInt(a, b));
    v.Floor
  }

  lemma FloorBetween(v: real, lo: int, hi: int)
    requires lo as real <= v <= hi as real
    ensures lo <= v.Floor <= hi
  {
  }

  lemma LerpBetween(a: real, b: real, t: real)
    requires 0.0 <= t < 1.0
    ensures a <= b ==> a <= a + t * (b - a) <= b
    ensures b <= a ==> b <= a + t * (b - a) <= a
  {
    var d := b - a;
    if a <= b {
      MulLe(0.0, t, d);
      MulLe(t, 1.0, d);
      assert t * d <= d;
      assert a + t * d <= b;
    } else {
      MulLe(0.0, t, -d);
      MulLe(t, 1.0, -d);
    }
    assert t * d == t * (b - a);
  }

  lemma MulLe(x: real, y: real, s: real)
    requires x <= y && s >= 0.0
    ensures x * s <= y * s
  {
  }

  /** FMath::BiLerp: interpolates along x in both rows, then between the rows along y. */
  function BiLerp(p00: nat, p10: nat, p01: nat, p11: nat, fx: real, fy: real): (r: nat)
    requires 0.0 <= fx < 1.0 && 0.0 <= fy < 1.0
    ensures (fx == 0.0 && fy == 0.0) ==> r == p00
    ensures MinInt(MinInt(p00, p10), MinInt(p01, p11)) <= r <= MaxInt(MaxInt(p00, p10), MaxInt(p01, p11))
  {
    Lerp(Lerp(p00, p10, fx), Lerp(p01, p11, fx), fy)
  }

  function MinInt(a: int, b: int): int { if a <= b then a else b }

  function MaxInt(a: int, b: int): int { if a >= b then a else b }

  /** The precondition ResampleData relies on: a full old grid and at least two new samples per axis. */
  predicate ResampleArgs(data: seq<nat>, ow: int, oh: int, nw: int, nh: int)
  {
    ow >= 1 && oh >= 1 && nw >= 2 && nh >= 2 && |data| == ow * oh
  }

  /** Sample (x, y) of a row-major grid of width w. */
  function At(data: seq<nat>, w: nat, h: nat, x: nat, y: nat): nat
    requires |data| == w * h && x < w && y < h
  {
    RowBound(y, h, w);
    data[y * w + x]
  }

  /** The position in the old grid of new sample x: x * (o - 1) / (n - 1). */
  function OldPos(x: nat, n: nat, o: nat): real
    requires n >= 2
  {
    x as real * ((o - 1) as real / (n - 1) as real)
  }

  /** Positions of new samples 0 .. n - 1 fall in 0 .. o - 1. */
  lemma OldPosInRange(x: nat, n: nat, o: nat)
    requires n >= 2 && o >= 1 && x < n
    ensures 0.0 <= OldPos(x, n, o) <= (o - 1) as real
    ensures 0 <= OldPos(x, n, o).Floor <= o - 1
  {
    var s := (o - 1) as real / (n - 1) as real;
    assert (n - 1) as real * s == (o - 1) as real;
    ScaleMono(x as real, (n - 1) as real, s);
    assert OldPos(x, n, o) == x as real * s;
  }

  lemma ScaleMono(a: real, b: real, s: real)
    requires 0.0 <= a <= b && s >= 0.0
    ensures 0.0 <= a * s <= b * s
  {
  }

  /** The last new sample lands exactly on the last old sample. */
  lemma OldPosLast(n: nat, o: nat)
    requires n >= 2 && o >= 1
    ensures OldPos(n - 1, n, o) == (o - 1) as real
  {
    var s := (o - 1) as real / (n - 1) as real;
    assert s * (n - 1) as real == (o - 1) as real;
  }

  /** With equal sizes every new sample lands exactly on the old one. */
  lemma OldPosSame(x: nat, n: nat)
    requires n >= 2
    ensures OldPos(x, n, n) == x as real
  {
    var s := (n - 1) as real / (n - 1) as real;
    assert s * (n - 1) as real == (n - 1) as real;
    assert s == 1.0;
  }

  /** The bilinear sample of the new grid at (x, y). */
  function Sample(data: seq<nat>, ow: nat, oh: nat, nw: nat, nh: nat, x: nat, y: nat): nat
    requires ResampleArgs(data, ow, oh, nw, nh) && x < nw && y < nh
  {
    var oldX := OldPos(x, nw, ow);
    var oldY := OldPos(y, nh, oh);
    OldPosInRange(x, nw, ow);
    OldPosInRange(y, nh, oh);
    var x0 := oldX.Floor;
    var y0 := oldY.Floor;
    var x1 := if x0 + 1 < ow - 1 then x0 + 1 else ow - 1;
    var y1 := if y0 + 1 < oh - 1 then y0 + 1 else oh - 1;
    BiLerp(At(data, ow, oh, x0, y0), At(data, ow, oh, x1, y0),
           At(data, ow, oh, x0, y1), At(data, ow, oh, x1, y1),
           oldX - x0 as real, oldY - y0 as real)
  }

  function ResampleRow(data: seq<nat>, ow: nat, oh: nat, nw: nat, nh: nat, y: nat): seq<nat>
    requires ResampleArgs(data, ow, oh, nw, nh) && y < nh
  {
    seq(nw, x requires 0 <= x < nw => Sample(data, ow, oh, nw, nh, x, y))
  }

  /** The new grid, row by row. */
  function ResampleGrid(data: seq<nat>, ow: nat, oh: nat, nw: nat, nh: nat): (g: seq<seq<nat>>)
    requires ResampleArgs(data, ow, oh, nw, nh)
  {
    seq(nh, y requires 0 <= y < nh => ResampleRow(data, ow, oh, nw, nh, y))
  }

  /** Fills the NewWidth x NewHeight result row by row. */
  method ResampleData(data: seq<nat>, ow: nat, oh: nat, nw: nat, nh: nat) returns (r: seq<nat>)
    requires ResampleArgs(data, ow, oh, nw, nh)
    ensures r == Flatten(ResampleGrid(data, ow, oh, nw, nh))
    ensures |r| == nw * nh
  {
    ghost var g := ResampleGrid(data, ow, oh, nw, nh);
    r := [];
    var y := 0;
    while y < nh
      invariant 0 <= y <= nh
      invariant r == Flatten(g[..y])
    {
      var row := [];
      var x := 0;
      while x < nw
        invariant 0 <= x <= nw
        invariant row == g[y][..x]
      {
        row := row + [Sample(data, ow, oh, nw, nh, x, y)];
        x := x + 1;
      }
      assert row == g[y];
      FlattenStep(g, y);
      r := r + row;
      y := y + 1;
    }
    assert g[..y] == g;
    FlattenLength(g, nw);
  }

  /** Every resampled value lies within the range of the old samples. */
  lemma ResampleBounded(data: seq<nat>, ow: nat, oh: nat, nw: nat, nh: nat, lo: int, hi: int)
    requires ResampleArgs(data, ow, oh, nw, nh)
    requires forall i :: 0 <= i < |data| ==> lo <= data[i] <= hi
    ensures forall y, x :: 0 <= y < nh && 0 <= x < nw ==> lo <= ResampleGrid(data, ow, oh, nw, nh)[y][x] <= hi
  {
    forall y, x | 0 <= y < nh && 0 <= x < nw
      ensures lo <= ResampleGrid(data, ow, oh, nw, nh)[y][x] <= hi
    {
      SampleBounded(data, ow, oh, nw, nh, x, y, lo, hi);
    }
  }

  lemma SampleBounded(data: seq<nat>, ow: nat, oh: nat, nw: nat, nh: nat, x: nat, y: nat, lo: int, hi: int)
    requires ResampleArgs(data, ow, oh, nw, nh) && x < nw && y < nh
    requires forall i :: 0 <= i < |data| ==> lo <= data[i] <= hi
    ensures lo <= Sample(data, ow, oh, nw, nh, x, y) <= hi
  {
    OldPosInRange(x, nw, ow);
    OldPosInRange(y, nh, oh);
    var x0 := OldPos(x, nw, ow).Floor;
    var y0 := OldPos(y, nh, oh).Floor;
    var x1 := if x0 + 1 < ow - 1 then x0 + 1 else ow - 1;
    var y1 := if y0 + 1 < oh - 1 then y0 + 1 else oh - 1;
    AtBounded(data, ow, oh, x0, y0, lo, hi);
    AtBounded(data, ow, oh, x1, y0, lo, hi);
    AtBounded(data, ow, oh, x0, y1, lo, hi);
    AtBounded(data, ow, oh, x1, y1, lo, hi);
  }

  lemma AtBounded(data: seq<nat>, w: nat, h: nat, x: nat, y: nat, lo: int, hi: int)
    requires |data| == w * h && x < w && y < h
    requires forall i :: 0 <= i < |data| ==> lo <= data[i] <= hi
    ensures lo <= At(data, w, h, x, y) <= hi
  {
    RowBound(y, h, w);
  }

  /** The four corner samples are carried over unchanged. */
  lemma ResampleCorners(data: seq<nat>, ow: nat, oh: nat, nw: nat, nh: nat)
    requires ResampleArgs(data, ow, oh, nw, nh)
    ensures ResampleGrid(data, ow, oh, nw, nh)[0][0] == At(data, ow, oh, 0, 0)
    ensures ResampleGrid(data, ow, oh, nw, nh)[0][nw - 1] == At(data, ow, oh, ow - 1, 0)
    ensures ResampleGrid(data, ow, oh, nw, nh)[nh - 1][0] == At(data, ow, oh, 0, oh - 1)
    ensures ResampleGrid(data, ow, oh, nw, nh)[nh - 1][nw - 1] == At(data, ow, oh, ow - 1, oh - 1)
  {
    OldPosLast(nw, ow);
    OldPosLast(nh, oh);
    assert OldPos(0, nw, ow) == 0.0 && OldPos(0, nh, oh) == 0.0;
    assert ResampleGrid(data, ow, oh, nw, nh)[0][0] == Sample(data, ow, oh, nw, nh, 0, 0);
    assert ResampleGrid(data, ow, oh, nw, nh)[0][nw - 1] == Sample(data, ow, oh, nw, nh, nw - 1, 0);
    assert ResampleGrid(data, ow, oh, nw, nh)[nh - 1][0] == Sample(data, ow, oh, nw, nh, 0, nh - 1);
    assert ResampleGrid(data, ow, oh, nw, nh)[nh - 1][nw - 1] == Sample(data, ow, oh, nw, nh, nw - 1, nh - 1);
  }

  /** The old grid cut into rows of width w. */
  function Rows(data: seq<nat>, w: nat, h: nat): (rows: seq<seq<nat>>)
    requires |data| == w * h
  {
    seq(h, y requires 0 <= y < h => RowBound(y, h, w); data[y * w .. y * w + w])
  }

  /** Laying the rows of a grid out again gives back the grid. */
  lemma {:induction false} FlattenRows(data: seq<nat>, w: nat, h: nat, k: nat)
    requires |data| == w * h && k <= h
    ensures k * w <= |data|
    ensures Flatten(Rows(data, w, h)[..k]) == data[..k * w]
  {
    if k > 0 {
      var rows := Rows(data, w, h);
      var a := (k - 1) * w;
      assert a + w == k * w;
      RowBound(k - 1, h, w);
      FlattenRows(data, w, h, k - 1);
      FlattenStep(rows, k - 1);
      assert rows[k - 1] == data[a .. a + w];
      assert data[..a + w] == data[..a] + data[a .. a + w];
    }
  }

  /** Resampling to the same size returns the data unchanged. */
  lemma ResampleIdentity(data: seq<nat>, w: nat, h: nat)
    requires ResampleArgs(data, w, h, w, h)
    ensures Flatten(ResampleGrid(data, w, h, w, h)) == data
  {
    var g := ResampleGrid(data, w, h, w, h);
    var rows := Rows(data, w, h);
    forall y | 0 <= y < h
      ensures g[y] == rows[y]
    {
      RowSame(data, w, h, y);
    }
    assert g == rows;
    FlattenRows(data, w, h, h);
    assert rows[..h] == rows;
    assert data[..h * w] == data;
  }

  lemma RowSame(data: seq<nat>, w: nat, h: nat, y: nat)
    requires ResampleArgs(data, w, h, w, h) && y < h
    ensures ResampleGrid(data, w, h, w, h)[y] == Rows(data, w, h)[y]
  {
    var row := ResampleRow(data, w, h, w, h, y);
    RowBound(y, h, w);
    var orig := data[y * w .. y * w + w];
    assert Rows(data, w, h)[y] == orig;
    forall x | 0 <= x < w
      ensures row[x] == orig[x]
    {
      SampleSame(data, w, h, x, y);
    }
  }

  lemma SampleSame(data: seq<nat>, w: nat, h: nat, x: nat, y: nat)
    requires ResampleArgs(data, w, h, w, h) && x < w && y < h
    ensures Sample(data, w, h, w, h, x, y) == At(data, w, h, x, y)
  {
    OldPosSame(x, w);
    OldPosSame(y, h);
  }

  // ------------------------------------------------------------- tiles

  /** The western edge of slippy-map tile column x at zoom z, as in the Mapbox plugin. */
  function TileXToLon(x: int, z: nat): (lon: real)
    requires MapboxConverter.ZoomInRange(z)
  {
    x as real / Pow2(z) as real * 360.0 - 180.0
  }

  /** Both plugins number tile columns the same way. */
  lemma TileXToLonAgrees(x: int, z: nat)
    requires MapboxConverter.ZoomInRange(z)
    ensures TileXToLon(x, z) == MapboxConverter.TileXToLon(x, z)
  {
  }
}
