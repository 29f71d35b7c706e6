/**
 * ALandscapingProcMeshLandscape: a landscape imported as a procedural mesh.
 * CreateMesh stores the height samples and the grid spacing, then appends one
 * vertex (and UV) per sample, row by row, and two triangles per grid quad.
 * Normals and tangents (normalised cross products) are not part of this model.
 */
module ProcMeshLandscape {
  import opened Common

  // ------------------------------------------------------------ vertices

  /** Grid line i of the height samples: samples i * XSize .. i * XSize + XSize - 1. */
  function HeightRow(heightData: seq<real>, i: nat, xSize: nat, ySize: nat): (row: seq<real>)
    requires i < ySize && |heightData| >= xSize * ySize
    ensures |row| == xSize
  {
    RowBound(i, ySize, xSize);
    heightData[i * xSize..i * xSize + xSize]
  }

  /** Vertex (j, i) of the grid: j and i grid steps along X and Y, at 100 times its height sample (cm). */
  function Vertex(i: nat, j: nat, scale: Vec3, height: real): Vec3
  {
    Vec3(j as real * scale.x, i as real * scale.y, height * 100.0)
  }

  function VertexRow(i: nat, scale: Vec3, heights: seq<real>): (row: seq<Vec3>)
    ensures |row| == |heights|
    ensures forall j :: 0 <= j < |heights| ==> row[j] == Vertex(i, j, scale, heights[j])
  {
    seq(|heights|, j requires 0 <= j < |heights| => Vertex(i, j, scale, heights[j]))
  }

  /** The vertices CreateVertices appends, one row per grid line. */
  function VertexGrid(xSize: nat, ySize: nat, scale: Vec3, heightData: seq<real>): (g: seq<seq<Vec3>>)
    requires |heightData| >= xSize * ySize
    ensures |g| == ySize
    ensures forall i :: 0 <= i < ySize ==> |g[i]| == xSize
    ensures forall i :: 0 <= i < ySize ==> g[i] == VertexRow(i, scale, HeightRow(heightData, i, xSize, ySize))
  {
    seq(ySize, i requires 0 <= i < ySize => VertexRow(i, scale, HeightRow(heightData, i, xSize, ySize)))
  }

  /** The texture coordinate of vertex (j, i): its position scaled to [0, 1] on both axes. */
  function UV(i: nat, j: nat, xSize: nat, ySize: nat): Vec2
    requires xSize >= 2 && ySize >= 2
  {
    Vec2(j as real / (xSize - 1) as real, i as real / (ySize - 1) as real)
  }

  function UVRow(i: nat, xSize: nat, ySize: nat): (row: seq<Vec2>)
    requires xSize >= 2 && ySize >= 2
    ensures |row| == xSize
    ensures forall j :: 0 <= j < xSize ==> row[j] == UV(i, j, xSize, ySize)
  {
    seq(xSize, j requires 0 <= j < xSize => UV(i, j, xSize, ySize))
  }

  function UVGrid(xSize: nat, ySize: nat): (g: seq<seq<Vec2>>)
    requires xSize >= 2 && ySize >= 2
    ensures |g| == ySize
    ensures forall i :: 0 <= i < ySize ==> g[i] == UVRow(i, xSize, ySize)
  {
    seq(ySize, i requires 0 <= i < ySize => UVRow(i, xSize, ySize))
  }

  /** CreateVertices appends XSize * YSize vertices; vertex i * XSize + j is grid point (j, i). */
  lemma VertexAt(xSize: nat, ySize: nat, scale: Vec3, heightData: seq<real>, i: nat, j: nat)
    requires |heightData| >= xSize * ySize && i < ySize && j < xSize
    ensures |Flatten(VertexGrid(xSize, ySize, scale, heightData))| == xSize * ySize
    ensures i * xSize + j < |Flatten(VertexGrid(xSize, ySize, scale, heightData))|
    ensures Flatten(VertexGrid(xSize, ySize, scale, heightData))[i * xSize + j]
            == Vertex(i, j, scale, HeightRow(heightData, i, xSize, ySize)[j])
  {
    FlattenCell(VertexGrid(xSize, ySize, scale, heightData), xSize, i, j);
  }

  /** Sample j of grid line i is sample i * XSize + j of the height data. */
  lemma HeightRowAt(heightData: seq<real>, xSize: nat, ySize: nat, i: nat, j: nat)
    requires |heightData| >= xSize * ySize && i < ySize && j < xSize
    ensures i * xSize + j < |heightData|
    ensures HeightRow(heightData, i, xSize, ySize)[j] == heightData[i * xSize + j]
  {
    RowBound(i, ySize, xSize);
  }

  /** Every texture coordinate lies in the unit square, one per vertex. */
  lemma {:induction false} UVsInUnitSquare(xSize: nat, ySize: nat)
    requires xSize >= 2 && ySize >= 2
    ensures |Flatten(UVGrid(xSize, ySize))| == xSize * ySize
    ensures forall k :: 0 <= k < |Flatten(UVGrid(xSize, ySize))| ==>
              0.0 <= Flatten(UVGrid(xSize, ySize))[k].x <= 1.0 && 0.0 <= Flatten(UVGrid(xSize, ySize))[k].y <= 1.0
  {
    var g: seq<seq<Vec2>> := UVGrid(xSize, ySize);
    FlattenLength(g, xSize);
    forall i: nat, j: nat | i < ySize && j < xSize
      ensures 0.0 <= g[i][j].x <= 1.0 && 0.0 <= g[i][j].y <= 1.0
    {
      UnitFraction(j, xSize - 1);
      UnitFraction(i, ySize - 1);
    }
    FlattenInUnitSquare(g);
  }

  lemma UnitFraction(a: nat, b: nat)
    requires a <= b && b > 0
    ensures 0.0 <= a as real / b as real <= 1.0
  {
  }

  lemma {:induction false} FlattenInUnitSquare(rows: seq<seq<Vec2>>)
    requires forall i, j :: 0 <= i < |rows| && 0 <= j < |rows[i]| ==>
               0.0 <= rows[i][j].x <= 1.0 && 0.0 <= rows[i][j].y <= 1.0
    ensures forall k :: 0 <= k < |Flatten(rows)| ==> 0.0 <= Flatten(rows)[k].x <= 1.0 && 0.0 <= Flatten(rows)[k].y <= 1.0
  {
    if rows != [] {
      var n := |rows| - 1;
      FlattenInUnitSquare(rows[..n]);
      assert forall i :: 0 <= i < n ==> rows[..n][i] == rows[i];
    }
  }

  // ------------------------------------------------------------ triangles

  /** The two triangles of the quad whose top-left vertex is idx, in a grid xSize vertices wide. */
  function Quad(idx: int, xSize: int): (q: seq<int>)
    ensures |q| == 6
  {
    [idx, idx + xSize, idx + 1, idx + 1, idx + xSize, idx + xSize + 1]
  }

  /** The quads of the grid row starting at vertex `base`, left to right. */
  function QuadRow(base: int, xSize: nat): (row: seq<seq<int>>)
    requires xSize >= 1
    ensures |row| == xSize - 1
    ensures forall j :: 0 <= j < xSize - 1 ==> row[j] == Quad(base + j, xSize)
  {
    seq(xSize - 1, j requires 0 <= j < xSize - 1 => Quad(base + j, xSize))
  }

  /** The quads of the grid, one row of them per grid row but the last. */
  function QuadGrid(xSize: nat, ySize: nat): (g: seq<seq<seq<int>>>)
    requires xSize >= 1 && ySize >= 1
    ensures |g| == ySize - 1
    ensures forall i :: 0 <= i < ySize - 1 ==> g[i] == QuadRow(i * xSize, xSize)
  {
    seq(ySize - 1, i requires 0 <= i < ySize - 1 => QuadRow(i * xSize, xSize))
  }

  /** The index buffer CreateTriangles appends (nothing for a grid without quads). */
  function Triangles(xSize: int, ySize: int): seq<int>
  {
    if xSize < 1 || ySize < 1 then [] else Flatten(Flatten(QuadGrid(xSize, ySize)))
  }

  /** Every quad has six indices. */
  lemma {:induction false} FlattenQuadsHaveSix(rows: seq<seq<seq<int>>>)
    requires forall i, j :: 0 <= i < |rows| && 0 <= j < |rows[i]| ==> |rows[i][j]| == 6
    ensures forall k :: 0 <= k < |Flatten(rows)| ==> |Flatten(rows)[k]| == 6
  {
    if rows != [] {
      var n := |rows| - 1;
      FlattenQuadsHaveSix(rows[..n]);
      assert forall i :: 0 <= i < n ==> rows[..n][i] == rows[i];
    }
  }

  /** The grid's quads in order: (XSize - 1) * (YSize - 1) of them, six indices each. */
  lemma QuadsInOrder(xSize: nat, ySize: nat)
    requires xSize >= 1 && ySize >= 1
    ensures |Flatten(QuadGrid(xSize, ySize))| == (ySize - 1) * (xSize - 1)
    ensures forall k :: 0 <= k < |Flatten(QuadGrid(xSize, ySize))| ==> |Flatten(QuadGrid(xSize, ySize))[k]| == 6
  {
    var g := QuadGrid(xSize, ySize);
    FlattenLength(g, xSize - 1);
    FlattenQuadsHaveSix(g);
  }

  /** Six indices per quad: 6 * (XSize - 1) * (YSize - 1) of them. */
  lemma TrianglesCount(xSize: nat, ySize: nat)
    requires xSize >= 1 && ySize >= 1
    ensures |Triangles(xSize, ySize)| == 6 * (xSize - 1) * (ySize - 1)
  {
    var quads := Flatten(QuadGrid(xSize, ySize));
    QuadsInOrder(xSize, ySize);
    FlattenLength(quads, 6);
    assert |Triangles(xSize, ySize)| == |quads| * 6;
    SixPerQuad(xSize - 1, ySize - 1);
  }

  lemma SixPerQuad(a: nat, b: nat)
    ensures b * a * 6 == 6 * a * b
  {
  }

  /**
   * Quad (j, i) is quad number q = i * (XSize - 1) + j of the buffer: the triangles
   * (idx, idx + XSize, idx + 1) and (idx + 1, idx + XSize, idx + XSize + 1) with
   * idx = i * XSize + j, at indices 6 * q .. 6 * q + 5.
   */
  lemma QuadAt(xSize: nat, ySize: nat, i: nat, j: nat, q: nat, k: nat)
    requires i < ySize - 1 && j < xSize - 1 && q == i * (xSize - 1) + j && k < 6
    ensures q * 6 + k < |Triangles(xSize, ySize)|
    ensures Triangles(xSize, ySize)[q * 6 + k] == Quad(i * xSize + j, xSize)[k]
  {
    QuadOfGrid(xSize, ySize, i, j, q);
    QuadsInOrder(xSize, ySize);
    FlattenCell(Flatten(QuadGrid(xSize, ySize)), 6, q, k);
  }

  lemma QuadOfGrid(xSize: nat, ySize: nat, i: nat, j: nat, q: nat)
    requires i < ySize - 1 && j < xSize - 1 && q == i * (xSize - 1) + j
    ensures q < |Flatten(QuadGrid(xSize, ySize))|
    ensures Flatten(QuadGrid(xSize, ySize))[q] == Quad(i * xSize + j, xSize)
  {
    FlattenCell(QuadGrid(xSize, ySize), xSize - 1, i, j);
  }

  /** Every index names a vertex of the XSize x YSize grid. */
  lemma {:induction false} TriangleIndicesInRange(xSize: nat, ySize: nat)
    ensures IndicesBelow(Triangles(xSize, ySize), xSize * ySize)
  {
    if xSize >= 1 && ySize >= 1 {
      var g := QuadGrid(xSize, ySize);
      forall i, j | 0 <= i < ySize - 1 && 0 <= j < xSize - 1
        ensures IndicesBelow(g[i][j], xSize * ySize)
      {
        QuadInRange(xSize, ySize, i, j);
      }
      FlattenBounded(g, xSize * ySize);
      FlattenIntsBounded(Flatten(g), xSize * ySize);
    }
  }

  lemma QuadInRange(xSize: nat, ySize: nat, i: nat, j: nat)
    requires i < ySize - 1 && j < xSize - 1
    ensures IndicesBelow(Quad(i * xSize + j, xSize), xSize * ySize)
  {
    MulMono(i + 1, ySize - 1, xSize);
    assert (i + 1) * xSize == i * xSize + xSize;
    assert (ySize - 1) * xSize == ySize * xSize - xSize;
  }

  /** Every index of q names one of `bound` vertices. */
  predicate IndicesBelow(q: seq<int>, bound: int)
  {
    forall k :: 0 <= k < |q| ==> 0 <= q[k] < bound
  }

  /** Quads whose indices are bounded stay bounded when laid out row after row. */
  lemma {:induction false} FlattenBounded(rows: seq<seq<seq<int>>>, bound: int)
    requires forall i, j :: 0 <= i < |rows| && 0 <= j < |rows[i]| ==> IndicesBelow(rows[i][j], bound)
    ensures forall q :: 0 <= q < |Flatten(rows)| ==> IndicesBelow(Flatten(rows)[q], bound)
  {
    if rows != [] {
      var n := |rows| - 1;
      FlattenBounded(rows[..n], bound);
      assert forall i :: 0 <= i < n ==> rows[..n][i] == rows[i];
    }
  }

  lemma {:induction false} FlattenIntsBounded(rows: seq<seq<int>>, bound: int)
    requires forall i :: 0 <= i < |rows| ==> IndicesBelow(rows[i], bound)
    ensures IndicesBelow(Flatten(rows), bound)
  {
    if rows != [] {
      var n := |rows| - 1;
      FlattenIntsBounded(rows[..n], bound);
      assert forall i :: 0 <= i < n ==> rows[..n][i] == rows[i];
    }
  }

  // ---------------------------------------------------------------- actor

  class ProcMeshLandscape {
    var xSize: nat
    var ySize: nat
    var heightData: seq<real>
    var scale: Vec3
    var vertices: seq<Vec3>
    var uv0: seq<Vec2>
    var triangles: seq<int>

    constructor ()
      ensures xSize == 0 && ySize == 0 && heightData == [] && scale == Vec3(100.0, 100.0, 100.0)
      ensures vertices == [] && uv0 == [] && triangles == []
    {
      xSize, ySize := 0, 0;
      heightData := [];
      scale := Vec3(100.0, 100.0, 100.0);
      vertices, uv0, triangles := [], [], [];
    }

    /**
     * Stores the grid size, the height samples and the grid spacing (100 cm
     * per metre of pixel size, sign dropped), then appends the vertices, UVs
     * and triangles of the grid to what the mesh already holds.
     */
    method CreateMesh(importResolution: IntVec, meterPerPixelX: real, meterPerPixelY: real, inHeightData: seq<real>)
      modifies this
      requires importResolution.x >= 2 && importResolution.y >= 2
      requires |inHeightData| >= importResolution.x * importResolution.y
      ensures xSize == importResolution.x && ySize == importResolution.y && heightData == inHeightData
      ensures scale == Vec3(Abs(meterPerPixelX) * 100.0, Abs(meterPerPixelY) * 100.0, old(scale.z))
      ensures vertices == old(vertices) + Flatten(VertexGrid(xSize, ySize, scale, heightData))
      ensures uv0 == old(uv0) + Flatten(UVGrid(xSize, ySize))
      ensures triangles == old(triangles) + Triangles(xSize, ySize)
    {
      xSize := importResolution.x;
      ySize := importResolution.y;
      heightData := inHeightData;
      scale := scale.(x := Abs(meterPerPixelX) * 100.0, y := Abs(meterPerPixelY) * 100.0);
      CreateVertices();
      CreateTriangles();
    }

    /** Appends one vertex and one UV per height sample, row by row. */
    method CreateVertices()
      modifies this`vertices, this`uv0
      requires xSize >= 2 && ySize >= 2 && |heightData| >= xSize * ySize
      ensures vertices == old(vertices) + Flatten(VertexGrid(xSize, ySize, scale, heightData))
      ensures uv0 == old(uv0) + Flatten(UVGrid(xSize, ySize))
    {
      var vs, uvs := GridVertices(xSize, ySize, scale, heightData);
      vertices := vertices + vs;
      uv0 := uv0 + uvs;
    }

    /** Appends the two triangles of every grid quad, row by row. */
    method CreateTriangles()
      modifies this`triangles
      ensures triangles == old(triangles) + Triangles(xSize, ySize)
    {
      var indices := QuadIndices(xSize, ySize);
      triangles := triangles + indices;
    }
  }

  /** The loops of CreateVertices: one vertex and one UV per height sample, grid line by grid line. */
  method GridVertices(xSize: nat, ySize: nat, scale: Vec3, heightData: seq<real>) returns (vs: seq<Vec3>, uvs: seq<Vec2>)
    requires xSize >= 2 && ySize >= 2 && |heightData| >= xSize * ySize
    ensures vs == Flatten(VertexGrid(xSize, ySize, scale, heightData))
    ensures uvs == Flatten(UVGrid(xSize, ySize))
  {
    ghost var vg := VertexGrid(xSize, ySize, scale, heightData);
    ghost var ug := UVGrid(xSize, ySize);
    vs, uvs := [], [];
    var i := 0;
    while i < ySize
      invariant 0 <= i <= ySize
      invariant vs == Flatten(vg[..i])
      invariant uvs == Flatten(ug[..i])
    {
      var vrow, uvrow := LineVertices(i, xSize, ySize, scale, heightData);
      FlattenStep(vg, i);
      FlattenStep(ug, i);
      vs, uvs := vs + vrow, uvs + uvrow;
      i := i + 1;
    }
    assert vg[..i] == vg && ug[..i] == ug;
  }

  /** The inner loop of CreateVertices: the vertices and UVs of grid line i, left to right. */
  method LineVertices(i: nat, xSize: nat, ySize: nat, scale: Vec3, heightData: seq<real>) returns (vrow: seq<Vec3>, uvrow: seq<Vec2>)
    requires xSize >= 2 && ySize >= 2 && i < ySize && |heightData| >= xSize * ySize
    ensures vrow == VertexRow(i, scale, HeightRow(heightData, i, xSize, ySize))
    ensures uvrow == UVRow(i, xSize, ySize)
  {
    ghost var heights := HeightRow(heightData, i, xSize, ySize);
    RowBound(i, ySize, xSize);
    var base := i * xSize;
    vrow, uvrow := [], [];
    var j := 0;
    while j < xSize
      invariant 0 <= j <= xSize
      invariant |vrow| == j && forall k :: 0 <= k < j ==> vrow[k] == Vertex(i, k, scale, heights[k])
      invariant |uvrow| == j && forall k :: 0 <= k < j ==> uvrow[k] == UV(i, k, xSize, ySize)
    {
      assert heightData[base + j] == heights[j];
      vrow := vrow + [Vertex(i, j, scale, heightData[base + j])];
      uvrow := uvrow + [UV(i, j, xSize, ySize)];
      j := j + 1;
    }
  }

  /** The loops of CreateTriangles: the quads of every grid row but the last, row by row. */
  method QuadIndices(xSize: int, ySize: int) returns (indices: seq<int>)
    ensures indices == Triangles(xSize, ySize)
  {
    indices := [];
    if xSize < 1 || ySize < 1 {
      return;
    }
    var i := 0;
    while i < ySize - 1
      invariant 0 <= i <= ySize - 1
      invariant indices == QuadRowsUpTo(xSize, i)
    {
      var row := QuadRowIndices(i * xSize, xSize);
      indices := indices + row;
      i := i + 1;
    }
    QuadRowsUpToAll(xSize, ySize);
  }

  /** The inner loop of CreateTriangles: the two triangles of each quad of one grid row, left to right. */
  method QuadRowIndices(base: int, xSize: nat) returns (indices: seq<int>)
    requires xSize >= 1
    ensures indices == Flatten(QuadRow(base, xSize))
  {
    ghost var quads := QuadRow(base, xSize);
    indices := [];
    var j := 0;
    while j < xSize - 1
      invariant 0 <= j <= xSize - 1
      invariant indices == Flatten(quads[..j])
    {
      var idx := j + base;
      indices := indices + [idx, idx + xSize, idx + 1];
      indices := indices + [idx + 1, idx + xSize, idx + xSize + 1];
      assert quads[..j + 1][..j] == quads[..j];
      j := j + 1;
    }
    assert quads[..j] == quads;
  }

  /** The indices of the first n rows of quads of a grid xSize vertices wide. */
  function QuadRowsUpTo(xSize: nat, n: nat): seq<int>
    requires xSize >= 1
  {
    if n == 0 then [] else QuadRowsUpTo(xSize, n - 1) + Flatten(QuadRow((n - 1) * xSize, xSize))
  }

  /** The first n rows of quads are the first n rows of the grid, flattened. */
  lemma {:induction false} QuadRowsUpToPrefix(xSize: nat, ySize: nat, n: nat)
    requires xSize >= 1 && ySize >= 1 && n <= ySize - 1
    ensures QuadRowsUpTo(xSize, n) == Flatten(Flatten(QuadGrid(xSize, ySize)[..n]))
  {
    var g := QuadGrid(xSize, ySize);
    if n > 0 {
      QuadRowsUpToPrefix(xSize, ySize, n - 1);
      FlattenPrefixStep(g, n - 1);
      assert g[n - 1] == QuadRow((n - 1) * xSize, xSize);
    }
  }

  /** All the rows of quads make up the index buffer. */
  lemma QuadRowsUpToAll(xSize: nat, ySize: nat)
    requires xSize >= 1 && ySize >= 1
    ensures QuadRowsUpTo(xSize, ySize - 1) == Triangles(xSize, ySize)
  {
    var g := QuadGrid(xSize, ySize);
    QuadRowsUpToPrefix(xSize, ySize, ySize - 1);
    assert g[..ySize - 1] == g;
  }

  /** Laying out one more row of quads appends that row's indices. */
  lemma FlattenPrefixStep(g: seq<seq<seq<int>>>, i: nat)
    requires i < |g|
    ensures Flatten(Flatten(g[..i + 1])) == Flatten(Flatten(g[..i])) + Flatten(g[i])
  {
    assert g[..i + 1][..i] == g[..i];
    FlattenAppend(Flatten(g[..i]), g[i]);
  }
}
