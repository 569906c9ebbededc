/**
 * The second rasterizer variant: vertices go through a 4x4 world-view-
 * projection matrix (without a divide by W) and the viewport, are sorted and
 * split, and the two halves are filled scanline by scanline with a depth test
 * that writes only where the stored depth is strictly farther.
 *
 * Every fill changes each pixel as a function of that pixel's own stored
 * depth and colour, so the effect of a method is stated pixel by pixel:
 * LinePixel for one scanline, RowsPixel for a run of scanlines, DrawnPixel
 * for a whole triangle.
 */
module Demo2 {
  import opened CoreMath
  import opened RasterizerCore
  import opened Viewports

  /** A 4x4 matrix; m<r><c> is the entry in row r and column c. */
  datatype Matrix = Matrix(
    m11: real, m12: real, m13: real, m14: real,
    m21: real, m22: real, m23: real, m24: real,
    m31: real, m32: real, m33: real, m34: real,
    m41: real, m42: real, m43: real, m44: real)

  const Identity: Matrix := Matrix(
    1.0, 0.0, 0.0, 0.0,
    0.0, 1.0, 0.0, 0.0,
    0.0, 0.0, 1.0, 0.0,
    0.0, 0.0, 0.0, 1.0)

  /** The matrix that moves a point by t (row vectors: the offset sits in the fourth row). */
  function Translation(t: Vector3): Matrix
  {
    Matrix(
      1.0, 0.0, 0.0, 0.0,
      0.0, 1.0, 0.0, 0.0,
      0.0, 0.0, 1.0, 0.0,
      t.x, t.y, t.z, 1.0)
  }

  /** The row vector v times the matrix m. */
  function Transform(v: Vector4, m: Matrix): (r: Vector4)
    ensures m == Identity ==> r == v
    ensures m == Translation(Vector3(m.m41, m.m42, m.m43)) && v.w == 1.0
         ==> r == Vector4(v.x + m.m41, v.y + m.m42, v.z + m.m43, 1.0)
  {
    Vector4(
      v.x * m.m11 + v.y * m.m21 + v.z * m.m31 + v.w * m.m41,
      v.x * m.m12 + v.y * m.m22 + v.z * m.m32 + v.w * m.m42,
      v.x * m.m13 + v.y * m.m23 + v.z * m.m33 + v.w * m.m43,
      v.x * m.m14 + v.y * m.m24 + v.z * m.m34 + v.w * m.m44)
  }

  /** The point (v, 1) transformed by m, keeping X, Y and Z and dropping W. */
  function VertexShader(v: Vector3, m: Matrix): (r: Vector3)
    ensures m == Identity ==> r == v
  {
    var p := Transform(Vector4(v.x, v.y, v.z, 1.0), m);
    Vector3(p.x, p.y, p.z)
  }

  /** No divide by W: the fourth column of the matrix has no effect on the result. */
  lemma VertexShaderIgnoresW(v: Vector3, m: Matrix, a: real, b: real, c: real, d: real)
    ensures VertexShader(v, m) == VertexShader(v, m.(m14 := a, m24 := b, m34 := c, m44 := d))
  {
  }

  lemma VertexShaderTranslation(v: Vector3, t: Vector3)
    ensures VertexShader(v, Translation(t)) == Vector3(v.x + t.x, v.y + t.y, v.z + t.z)
  {
  }

  /**
   * The part of FillScanLine that computes the scanline at height y: the
   * fraction of the way from the apex v1 to the flat edge v2-v3, and X and
   * depth at that fraction along the edges v1-v2 and v1-v3.
   */
  function ScanLine(v1: Vector3, v2: Vector3, v3: Vector3, y: real): (s: Span)
    requires v1.y != v2.y
    ensures s.y == y
  {
    var f := Remap(v1.y, v2.y, y);
    Span(y, Lerp(v1.x, v2.x, f), Lerp(v1.x, v3.x, f), Lerp(v1.z, v2.z, f), Lerp(v1.z, v3.z, f))
  }

  /** At the apex's height the scanline shrinks to the apex. */
  lemma ScanLineAtApex(v1: Vector3, v2: Vector3, v3: Vector3)
    requires v1.y != v2.y
    ensures ScanLine(v1, v2, v3, v1.y) == Span(v1.y, v1.x, v1.x, v1.z, v1.z)
  {
  }

  /** At the flat edge's height the scanline is that edge. */
  lemma ScanLineAtFlatEdge(v1: Vector3, v2: Vector3, v3: Vector3)
    requires v1.y != v2.y
    ensures ScanLine(v1, v2, v3, v2.y) == Span(v2.y, v2.x, v3.x, v2.z, v3.z)
  {
  }

  /** The top half (apex v1) and the bottom half (apex v3) meet in the same scanline v2-v4. */
  lemma {:induction false} HalvesMeetAtSplit(h: Halves)
    requires h.v1.y < h.v2.y < h.v3.y && h.v4.y == h.v2.y
    ensures ScanLine(h.v1, h.v2, h.v4, h.v2.y) == ScanLine(h.v3, h.v2, h.v4, h.v2.y)
  {
    ScanLineAtFlatEdge(h.v1, h.v2, h.v4);
    ScanLineAtFlatEdge(h.v3, h.v2, h.v4);
  }

  /** The scanline's ends lie on the edges v1-v2 and v1-v3. */
  lemma {:induction false} ScanLineOnEdges(v1: Vector3, v2: Vector3, v3: Vector3, y: real)
    requires v1.y != v2.y
    ensures var s := ScanLine(v1, v2, v3, y);
      && (s.x0 - v1.x) * (v2.y - v1.y) == (v2.x - v1.x) * (y - v1.y)
      && (s.x1 - v1.x) * (v2.y - v1.y) == (v3.x - v1.x) * (y - v1.y)
  {
    var f := Remap(v1.y, v2.y, y);
    calc {
      (v2.x - v1.x) * f * (v2.y - v1.y);
      (v2.x - v1.x) * (f * (v2.y - v1.y));
      (v2.x - v1.x) * (y - v1.y);
    }
    calc {
      (v3.x - v1.x) * f * (v2.y - v1.y);
      (v3.x - v1.x) * (f * (v2.y - v1.y));
      (v3.x - v1.x) * (y - v1.y);
    }
  }

  /** The depth sample written for depth d: (int)(255 * Clamp(d, 0, 1)). */
  function Encode(d: real): (b: Byte)
    ensures b as real <= 255.0 * Clamp(d, 0.0, 1.0) < b as real + 1.0
    ensures 0.0 <= d <= 1.0 ==> b as int == Trunc(255.0 * d)
  {
    Trunc(255.0 * Clamp(d, 0.0, 1.0)) as Byte
  }

  /** The depth test: the stored sample is strictly greater than (int)(255 * d). */
  predicate Passes(stored: Byte, d: real)
    ensures 0.0 <= d <= 1.0 ==> (Passes(stored, d) <==> Encode(d) < stored)
    ensures 1.0 <= d ==> !Passes(stored, d)
    ensures d < 0.0 && 0 < stored ==> Passes(stored, d)
  {
    stored as int > Trunc(255.0 * d)
  }

  /** One pixel's depth test with new depth d and colour c. */
  function DepthTest(p: Sample, d: real, c: Rgb): (q: Sample)
    ensures Passes(p.depth, d) ==> q == Sample(Encode(d), c)
    ensures !Passes(p.depth, d) ==> q == p
    ensures q.depth <= p.depth
  {
    if p.depth as int > Trunc(255.0 * d) then Sample(Encode(d), c) else p
  }

  /** A depth that encodes to the stored sample never overwrites it. */
  lemma TiesKeepStored(p: Sample, d: real, c: Rgb)
    requires Trunc(255.0 * d) == p.depth as int
    ensures DepthTest(p, d, c) == p
  {
  }

  /**
   * Two depths in [0, 1] that encode differently leave the same sample
   * whichever is drawn first: the nearer one wins if it beats the stored one.
   */
  lemma DepthTestOrderIndependent(p: Sample, da: real, ca: Rgb, db: real, cb: Rgb)
    requires 0.0 <= da <= 1.0 && 0.0 <= db <= 1.0
    requires Trunc(255.0 * da) != Trunc(255.0 * db)
    ensures DepthTest(DepthTest(p, da, ca), db, cb) == DepthTest(DepthTest(p, db, cb), da, ca)
  {
  }

  /** The worked example: over a cleared pixel, depth 0.2 wins over depth 0.8 in either order. */
  lemma NearerWinsExample(bg: Rgb, near: Rgb, far: Rgb)
    ensures DepthTest(DepthTest(Sample(FarDepth, bg), 0.2, near), 0.8, far) == Sample(51, near)
    ensures DepthTest(DepthTest(Sample(FarDepth, bg), 0.8, far), 0.2, near) == Sample(51, near)
  {
    assert Trunc(255.0 * 0.2) == 51;
    assert Trunc(255.0 * 0.8) == 204;
  }

  /** The effect of DrawLineDepthTest for scanline s on pixel (i, j). */
  function LinePixel(s: Span, i: int, j: int, p: Sample, c: Rgb): (q: Sample)
    ensures q != p ==> j == Trunc(s.y) && InSpan(s.x0, s.x1, i)
    ensures j == Trunc(s.y) && InSpan(s.x0, s.x1, i) ==> q == DepthTest(p, DepthAt(s, i), c)
  {
    if j == Trunc(s.y) && InSpan(s.x0, s.x1, i) then DepthTest(p, DepthAt(s, i), c) else p
  }

  /** The scanline the fill loops compute for pixel row `row`, sampled at its centre. */
  function RowSpan(v1: Vector3, v2: Vector3, v3: Vector3, row: int): (s: Span)
    requires v1.y != v2.y
    ensures s.y == Centre(row)
  {
    ScanLine(v1, v2, v3, Centre(row))
  }

  /** The effect on pixel (i, j) of filling rows lo .. hi - 1 of the half with apex v1 and flat edge v2-v3. */
  function RowsPixel(v1: Vector3, v2: Vector3, v3: Vector3, lo: int, hi: int, i: int, j: int, p: Sample, c: Rgb): (q: Sample)
    requires lo < hi ==> v1.y != v2.y
    ensures q != p ==> lo <= j < hi
  {
    if lo <= j < hi then LinePixel(RowSpan(v1, v2, v3, j), i, j, p, c) else p
  }

  /** Every pixel the fill of rows lo .. hi - 1 visits lies inside a width x height bitmap. */
  predicate RowsInside(v1: Vector3, v2: Vector3, v3: Vector3, lo: int, hi: int, width: int, height: int)
    requires lo < hi ==> v1.y != v2.y
  {
    && (lo < hi ==> 0 <= lo && hi <= height)
    && forall row | lo <= row < hi :: SpanInside(RowSpan(v1, v2, v3, row), width, height)
  }

  /** The three vertices of a draw call after the vertex shader and the viewport, sorted and split. */
  function Prepare(vertices: seq<Vector3>, viewport: Viewport, m: Matrix): (h: Halves)
    requires |vertices| >= 3
    ensures h.v1.y <= h.v2.y <= h.v3.y && h.v4.y == h.v2.y
    ensures multiset{h.v1, h.v2, h.v3}
         == multiset{ViewportTransform(viewport, VertexShader(vertices[0], m)),
                     ViewportTransform(viewport, VertexShader(vertices[1], m)),
                     ViewportTransform(viewport, VertexShader(vertices[2], m))}
  {
    SplitSorted(
      ViewportTransform(viewport, VertexShader(vertices[0], m)),
      ViewportTransform(viewport, VertexShader(vertices[1], m)),
      ViewportTransform(viewport, VertexShader(vertices[2], m)))
  }

  /** Every pixel that Draw visits in `mode` lies inside a width x height bitmap. */
  predicate DrawInside(mode: RasterizerMode, h: Halves, width: int, height: int)
  {
    && (FillsTop(mode) ==> RowsInside(h.v1, h.v2, h.v4, Round(h.v1.y), Round(h.v2.y), width, height))
    && (FillsBottom(mode) ==> RowsInside(h.v3, h.v2, h.v4, Round(h.v2.y), Round(h.v3.y), width, height))
  }

  /** The effect of Draw on pixel (i, j): the top half's rows (if filled), then the bottom half's. */
  function DrawnPixel(mode: RasterizerMode, h: Halves, i: int, j: int, p: Sample, c: Rgb): (q: Sample)
    ensures q != p ==> || (FillsTop(mode) && Round(h.v1.y) <= j < Round(h.v2.y))
                       || (FillsBottom(mode) && Round(h.v2.y) <= j < Round(h.v3.y))
  {
    var top := if FillsTop(mode) then RowsPixel(h.v1, h.v2, h.v4, Round(h.v1.y), Round(h.v2.y), i, j, p, c) else p;
    if FillsBottom(mode) then RowsPixel(h.v3, h.v2, h.v4, Round(h.v2.y), Round(h.v3.y), i, j, top, c) else top
  }

  /** Drawing never moves a stored depth farther away. */
  lemma {:induction false} DrawnPixelNeverFarther(mode: RasterizerMode, h: Halves, i: int, j: int, p: Sample, c: Rgb)
    ensures DrawnPixel(mode, h, i, j, p, c).depth <= p.depth
  {
    var top := if FillsTop(mode) then RowsPixel(h.v1, h.v2, h.v4, Round(h.v1.y), Round(h.v2.y), i, j, p, c) else p;
    assert top.depth <= p.depth;
  }

  /**
   * The halves cover disjoint rows, top above bottom: in mode Top only rows
   * above v2's are drawn, in mode Bottom only the others, and Both draws each
   * row exactly as the mode for its half would.
   */
  lemma {:induction false} ModeSelectsHalves(h: Halves, i: int, j: int, p: Sample, c: Rgb)
    ensures j >= Round(h.v2.y) ==> DrawnPixel(Top, h, i, j, p, c) == p
    ensures j < Round(h.v2.y) ==> DrawnPixel(Bottom, h, i, j, p, c) == p
    ensures DrawnPixel(Both, h, i, j, p, c)
         == if j < Round(h.v2.y) then DrawnPixel(Top, h, i, j, p, c) else DrawnPixel(Bottom, h, i, j, p, c)
  {
  }

  /** A triangle whose vertices share one Y changes no pixel. */
  lemma {:induction false} FlatTriangleDrawsNothing(mode: RasterizerMode, h: Halves, i: int, j: int, p: Sample, c: Rgb)
    requires h.v1.y == h.v2.y == h.v3.y
    ensures DrawnPixel(mode, h, i, j, p, c) == p
  {
  }

  class SoftwareRasterizer {
    const core: SoftwareRasterizerCore

    constructor (width: nat, height: nat)
      ensures fresh(core) && fresh(core.backbuffer) && fresh(core.depthbuffer)
      ensures core.Valid() && core.width == width && core.height == height
      ensures core.rasterizerMode == Both && core.outputMode == Color
    {
      core := new SoftwareRasterizerCore(width, height);
    }

    /**
     * Draws one white triangle: transforms, maps, sorts and splits its
     * vertices and fills the halves the rasterizer mode selects.
     */
    method Draw(vertices: seq<Vector3>, viewport: Viewport, worldViewProjectionMatrix: Matrix)
      requires core.Valid() && |vertices| >= 3
      requires DrawInside(core.rasterizerMode, Prepare(vertices, viewport, worldViewProjectionMatrix), core.width, core.height)
      modifies core.backbuffer, core.depthbuffer
      ensures forall i, j | 0 <= i < core.width && 0 <= j < core.height ::
        core.SampleAt(i, j)
        == DrawnPixel(core.rasterizerMode, Prepare(vertices, viewport, worldViewProjectionMatrix), i, j,
                      old(core.SampleAt(i, j)), Rgb(255, 255, 255))
    {
      var color := Vector3(1.0, 1.0, 1.0);
      var v1 := VertexShader(vertices[0], worldViewProjectionMatrix);
      var v2 := VertexShader(vertices[1], worldViewProjectionMatrix);
      var v3 := VertexShader(vertices[2], worldViewProjectionMatrix);

      v1 := ViewportTransform(viewport, v1);
      v2 := ViewportTransform(viewport, v2);
      v3 := ViewportTransform(viewport, v3);

      ghost var h := Prepare(vertices, viewport, worldViewProjectionMatrix);
      v1, v2, v3 := core.SortVerticesAscendingByY(v1, v2, v3);

      var v4 := v2;
      if v1.y != v3.y {
        var s := Remap(v1.y, v3.y, v2.y);
        v4 := v4.(x := Lerp(v1.x, v3.x, s), z := Lerp(v1.z, v3.z, s));
      }
      assert h == Halves(v1, v2, v3, v4);

      if core.rasterizerMode == Top || core.rasterizerMode == Both {
        FillTopTriangle(v1, v2, v4, color);
      }

      if core.rasterizerMode == Bottom || core.rasterizerMode == Both {
        FillBottomTriangle(v3, v2, v4, color);
      }
    }

    /** Computes the scanline at height y and hands it to the line writer with the depth test. */
    method FillScanLine(v1: Vector3, v2: Vector3, v3: Vector3, color: Vector3, y: real)
      requires core.Valid() && ColorInRange(color) && v1.y != v2.y
      requires SpanInside(ScanLine(v1, v2, v3, y), core.width, core.height)
      modifies core.backbuffer, core.depthbuffer
      ensures forall i, j | 0 <= i < core.width && 0 <= j < core.height ::
        core.SampleAt(i, j) == LinePixel(ScanLine(v1, v2, v3, y), i, j, old(core.SampleAt(i, j)), ColorOf(color))
    {
      var line := ScanLine(v1, v2, v3, y);
      DrawLineDepthTest(y, line.x0, line.x1, line.d0, line.d1, color);
    }

    /** Fills the flat-bottom half with apex v1 and flat edge v2-v3, one pixel row at a time. */
    method FillTopTriangle(v1: Vector3, v2: Vector3, v3: Vector3, color: Vector3)
      requires core.Valid() && ColorInRange(color)
      requires v2.y == v3.y
      requires v1.y <= v3.y && v1.y <= v2.y
      requires RowsInside(v1, v2, v3, Round(v1.y), Round(v2.y), core.width, core.height)
      modifies core.backbuffer, core.depthbuffer
      ensures forall i, j | 0 <= i < core.width && 0 <= j < core.height ::
        core.SampleAt(i, j)
        == RowsPixel(v1, v2, v3, Round(v1.y), Round(v2.y), i, j, old(core.SampleAt(i, j)), ColorOf(color))
    {
      RoundMonotone(v1.y, v2.y);
      var y := Centre(Round(v1.y));
      ghost var row := Round(v1.y);
      while y < Centre(Round(v2.y))
        invariant y == Centre(row) && Round(v1.y) <= row <= Round(v2.y)
        invariant forall i, j | 0 <= i < core.width && 0 <= j < core.height ::
          core.SampleAt(i, j)
          == RowsPixel(v1, v2, v3, Round(v1.y), row, i, j, old(core.SampleAt(i, j)), ColorOf(color))
        decreases Round(v2.y) - row
      {
        assert ScanLine(v1, v2, v3, y) == RowSpan(v1, v2, v3, row);
        FillScanLine(v1, v2, v3, color, y);
        y := y + 1.0;
        row := row + 1;
      }
    }

    /** Fills the flat-top half with apex v1 (below) and flat edge v2-v3, one pixel row at a time. */
    method FillBottomTriangle(v1: Vector3, v2: Vector3, v3: Vector3, color: Vector3)
      requires core.Valid() && ColorInRange(color)
      requires v2.y == v3.y
      requires v1.y >= v3.y && v1.y >= v2.y
      requires RowsInside(v1, v2, v3, Round(v2.y), Round(v1.y), core.width, core.height)
      modifies core.backbuffer, core.depthbuffer
      ensures forall i, j | 0 <= i < core.width && 0 <= j < core.height ::
        core.SampleAt(i, j)
        == RowsPixel(v1, v2, v3, Round(v2.y), Round(v1.y), i, j, old(core.SampleAt(i, j)), ColorOf(color))
    {
      RoundMonotone(v2.y, v1.y);
      var y := Centre(Round(v2.y));
      ghost var row := Round(v2.y);
      while y < Centre(Round(v1.y))
        invariant y == Centre(row) && Round(v2.y) <= row <= Round(v1.y)
        invariant forall i, j | 0 <= i < core.width && 0 <= j < core.height ::
          core.SampleAt(i, j)
          == RowsPixel(v1, v2, v3, Round(v2.y), row, i, j, old(core.SampleAt(i, j)), ColorOf(color))
        decreases Round(v1.y) - row
      {
        assert ScanLine(v1, v2, v3, y) == RowSpan(v1, v2, v3, row);
        FillScanLine(v1, v2, v3, color, y);
        y := y + 1.0;
        row := row + 1;
      }
    }

    /**
     * Walks the pixel centres of row (int)y between the rounded ends and, at
     * each, writes the interpolated depth and the flat colour where the
     * stored depth is strictly farther.
     */
    method DrawLineDepthTest(y: real, x0: real, x1: real, depth0: real, depth1: real, color: Vector3)
      requires core.Valid() && ColorInRange(color)
      requires SpanInside(Span(y, x0, x1, depth0, depth1), core.width, core.height)
      modifies core.backbuffer, core.depthbuffer
      ensures forall i, j | 0 <= i < core.width && 0 <= j < core.height ::
        core.SampleAt(i, j)
        == LinePixel(Span(y, x0, x1, depth0, depth1), i, j, old(core.SampleAt(i, j)), ColorOf(color))
    {
      ghost var line := Span(y, x0, x1, depth0, depth1);
      var t0 := Min(x0, x1);
      var t1 := Max(x0, x1);
      RoundMonotone(t0, t1);
      var x := Centre(Round(t0));
      ghost var col := Round(t0);
      while x < Centre(Round(t1))
        invariant x == Centre(col) && Round(t0) <= col <= Round(t1)
        invariant forall i, j | 0 <= i < core.width && 0 <= j < core.height ::
          core.SampleAt(i, j)
          == if i < col then LinePixel(line, i, j, old(core.SampleAt(i, j)), ColorOf(color)) else old(core.SampleAt(i, j))
        decreases Round(t1) - col
      {
        var s := Remap(x0, x1, x);
        var depth := Lerp(depth0, depth1, s);
        if core.depthbuffer[Trunc(x), Trunc(y)] as int > Trunc(255.0 * depth) {
          core.depthbuffer[Trunc(x), Trunc(y)] := Encode(depth);
          core.backbuffer[Trunc(x), Trunc(y)] := ColorOf(color);
        }
        x := x + 1.0;
        col := col + 1;
      }
    }
  }
}
