/**
 * The first rasterizer variant. It differs from the second in three places:
 * the vertex shader scales X and Y and offsets all three coordinates by a
 * constant buffer instead of multiplying by a matrix; the scanline fraction
 * is measured against the third vertex's Y; and the depth test lets a pixel
 * through when 255 * Min(depth, 1) is at most the stored sample (ties
 * overwrite), writing (int)(255 * Min(depth, 1)) with no lower clamp.
 *
 * The graphics library refuses a colour component below zero, so writing a
 * depth with 255 * Min(depth, 1) <= -1 would fail; the model asks of its
 * callers that no visited pixel gets such a depth (see Encodable).
 */
module Demo1 {
  import opened CoreMath
  import opened RasterizerCore
  import opened Viewports
  import Demo2

  /** What the vertex shader reads: a scale (in W) and an offset (in X, Y, Z), and the fill colour. */
  datatype ConstantBuffer = ConstantBuffer(offsetScale: Vector4, color: Vector3)

  /** Scales X and Y by W and then offsets X, Y and Z. */
  function VertexShader(v: Vector3, cb: ConstantBuffer): (r: Vector3)
    ensures r.z - v.z == cb.offsetScale.z
  {
    var o := cb.offsetScale;
    Vector3(v.x * o.w + o.x, v.y * o.w + o.y, v.z + o.z)
  }

  /** Scale 1 and no offset leave a vertex where it is. */
  lemma VertexShaderIdentity(v: Vector3, color: Vector3)
    ensures VertexShader(v, ConstantBuffer(Vector4(0.0, 0.0, 0.0, 1.0), color)) == v
  {
  }

  /**
   * The matrix that does what the constant buffer does, as a row-vector
   * transform: X and Y scaled by W, then offset by (X, Y, Z).
   */
  function OffsetScaleMatrix(o: Vector4): Demo2.Matrix
  {
    Demo2.Matrix(
      o.w, 0.0, 0.0, 0.0,
      0.0, o.w, 0.0, 0.0,
      0.0, 0.0, 1.0, 0.0,
      o.x, o.y, o.z, 1.0)
  }

  /** The affine shader is the matrix shader of the second variant with that matrix. */
  lemma VertexShaderAsMatrix(v: Vector3, cb: ConstantBuffer)
    ensures VertexShader(v, cb) == Demo2.VertexShader(v, OffsetScaleMatrix(cb.offsetScale))
  {
  }

  /** Scaling and offsetting moves the three vertices alike, so the order by Y survives a positive scale. */
  lemma VertexShaderKeepsOrder(a: Vector3, b: Vector3, cb: ConstantBuffer)
    requires cb.offsetScale.w > 0.0
    ensures a.y < b.y <==> VertexShader(a, cb).y < VertexShader(b, cb).y
  {
    var w := cb.offsetScale.w;
    if a.y < b.y {
      MulNonNeg(b.y - a.y, w);
      assert (b.y - a.y) * w != 0.0;
    } else {
      MulNonNeg(a.y - b.y, w);
    }
  }

  /**
   * The part of FillScanLine that computes the scanline at height y: the
   * fraction of the way from v1's Y to v3's Y, and X and depth at that
   * fraction along the edges v1-v2 and v1-v3.
   */
  function ScanLine(v1: Vector3, v2: Vector3, v3: Vector3, y: real): (s: Span)
    requires v1.y != v3.y
    ensures s.y == y
  {
    var f := Remap(v1.y, v3.y, y);
    Span(y, Lerp(v1.x, v2.x, f), Lerp(v1.x, v3.x, f), Lerp(v1.z, v2.z, f), Lerp(v1.z, v3.z, f))
  }

  /**
   * On a half whose v2 and v3 share a Y (the only way the fills call it),
   * the scanline is the second variant's, which measures against v2.
   */
  lemma ScanLineAgrees(v1: Vector3, v2: Vector3, v3: Vector3, y: real)
    requires v2.y == v3.y && v1.y != v3.y
    ensures ScanLine(v1, v2, v3, y) == Demo2.ScanLine(v1, v2, v3, y)
  {
  }

  /** 255 * Min(depth, 1): the depth on the scale of a stored sample. */
  function Scaled(d: real): (r: real)
    ensures r <= 255.0
    ensures d <= 1.0 ==> r == 255.0 * d
  {
    255.0 * Min(d, 1.0)
  }

  /** Whether (int)Scaled(d) is a valid colour component, i.e. at least zero. */
  predicate Encodable(d: real)
  {
    Scaled(d) > -1.0
  }

  /** The depth sample written for depth d: (int)(255 * Min(d, 1)). */
  function Encode(d: real): (b: Byte)
    requires Encodable(d)
    ensures 0.0 <= d ==> b as real <= Scaled(d) < b as real + 1.0
    ensures d < 0.0 ==> b == 0
    ensures 0.0 <= d <= 1.0 ==> b == Demo2.Encode(d)
  {
    Trunc(Scaled(d)) as Byte
  }

  /** The depth test: Scaled(d) is at most the stored sample. */
  predicate Passes(stored: Byte, d: real)
    ensures 0.0 <= d && Passes(stored, d) ==> Demo2.Encode(d) <= stored
    ensures 1.0 <= d ==> (Passes(stored, d) <==> stored == FarDepth)
    ensures d <= 0.0 ==> Passes(stored, d)
  {
    Scaled(d) <= stored as real
  }

  /** One pixel's depth test with new depth d and colour c. */
  function DepthTest(p: Sample, d: real, c: Rgb): (q: Sample)
    requires Encodable(d)
    ensures Passes(p.depth, d) ==> q == Sample(Encode(d), c)
    ensures !Passes(p.depth, d) ==> q == p
    ensures q.depth <= p.depth
  {
    if Scaled(d) <= p.depth as real then Sample(Trunc(Scaled(d)) as Byte, c) else p
  }

  /** A non-negative depth is always encodable. */
  lemma NonNegativeEncodable(d: real)
    requires 0.0 <= d
    ensures Encodable(d)
  {
  }

  /**
   * For depths in [0, 1] this test passes exactly where the second
   * variant's strict test passes, plus where 255 * d equals the stored sample.
   */
  lemma PassesVersusStrict(stored: Byte, d: real)
    requires 0.0 <= d <= 1.0
    ensures Passes(stored, d) <==> Demo2.Passes(stored, d) || 255.0 * d == stored as real
  {
  }

  /** A depth that scales exactly to the stored sample overwrites it (the second variant keeps it). */
  lemma TiesOverwrite(p: Sample, d: real, c: Rgb)
    requires 0.0 <= d <= 1.0 && 255.0 * d == p.depth as real
    ensures DepthTest(p, d, c) == Sample(p.depth, c)
    ensures Demo2.DepthTest(p, d, c) == p
  {
  }

  /**
   * Drawing the same depth twice: the second colour replaces the first
   * exactly when 255 * d is a whole number, since otherwise the stored
   * sample is truncated below it.
   */
  lemma RedrawSameDepth(p: Sample, d: real, a: Rgb, b: Rgb)
    requires 0.0 <= d <= 1.0 && Passes(p.depth, d) && a != b
    ensures DepthTest(DepthTest(p, d, a), d, b).color == b <==> 255.0 * d == Trunc(255.0 * d) as real
  {
  }

  /**
   * Beyond the far plane (d > 1) the depth counts as 1: it still passes
   * over a cleared pixel and writes 255, where the second variant's test
   * never passes.
   */
  lemma BeyondFarPlane(p: Sample, d: real, c: Rgb)
    requires d > 1.0
    ensures DepthTest(p, d, c) == if p.depth == FarDepth then Sample(FarDepth, c) else p
    ensures Demo2.DepthTest(p, d, c) == p
  {
    assert Trunc(255.0 * d) >= 255;
  }

  /** Whether every column the line loop of `s` visits gets an encodable depth. */
  predicate SpanEncodable(s: Span)
  {
    forall col | Round(Min(s.x0, s.x1)) <= col < Round(Max(s.x0, s.x1)) :: Encodable(DepthAt(s, col))
  }

  /** A span whose end depths are not negative is encodable all along. */
  lemma {:induction false} NonNegativeSpanEncodable(s: Span)
    requires 0.0 <= s.d0 && 0.0 <= s.d1
    ensures SpanEncodable(s)
  {
    forall col | InSpan(s.x0, s.x1, col)
      ensures Encodable(DepthAt(s, col))
    {
      DepthAtBetween(s, col);
    }
  }

  /** The effect of DrawLineDepthTest for scanline s on pixel (i, j). */
  function LinePixel(s: Span, i: int, j: int, p: Sample, c: Rgb): (q: Sample)
    requires SpanEncodable(s)
    ensures q != p ==> j == Trunc(s.y) && InSpan(s.x0, s.x1, i)
    ensures j == Trunc(s.y) && InSpan(s.x0, s.x1, i) ==> q == DepthTest(p, DepthAt(s, i), c)
  {
    if j == Trunc(s.y) && InSpan(s.x0, s.x1, i) then DepthTest(p, DepthAt(s, i), c) else p
  }

  /** The scanline the fill loops compute for pixel row `row`, sampled at its centre. */
  function RowSpan(v1: Vector3, v2: Vector3, v3: Vector3, row: int): (s: Span)
    requires v1.y != v3.y
    ensures s.y == Centre(row)
  {
    ScanLine(v1, v2, v3, Centre(row))
  }

  /** Every column of rows lo .. hi - 1 that the fill visits gets an encodable depth. */
  predicate RowsEncodable(v1: Vector3, v2: Vector3, v3: Vector3, lo: int, hi: int)
    requires lo < hi ==> v1.y != v3.y
  {
    forall row | lo <= row < hi :: SpanEncodable(RowSpan(v1, v2, v3, row))
  }

  /** Every pixel the fill of rows lo .. hi - 1 visits lies inside a width x height bitmap and gets an encodable depth. */
  predicate RowsInside(v1: Vector3, v2: Vector3, v3: Vector3, lo: int, hi: int, width: int, height: int)
    requires lo < hi ==> v1.y != v3.y
  {
    && (lo < hi ==> 0 <= lo && hi <= height)
    && (forall row | lo <= row < hi :: SpanInside(RowSpan(v1, v2, v3, row), width, height))
    && RowsEncodable(v1, v2, v3, lo, hi)
  }

  /** The effect on pixel (i, j) of filling rows lo .. hi - 1 of the half with apex v1 and flat edge v2-v3. */
  function RowsPixel(v1: Vector3, v2: Vector3, v3: Vector3, lo: int, hi: int, i: int, j: int, p: Sample, c: Rgb): (q: Sample)
    requires lo < hi ==> v1.y != v3.y
    requires RowsEncodable(v1, v2, v3, lo, hi)
    ensures q != p ==> lo <= j < hi
  {
    if lo <= j < hi then LinePixel(RowSpan(v1, v2, v3, j), i, j, p, c) else p
  }

  /**
   * Rows whose vertices all have non-negative depth get encodable depths
   * everywhere: the rows visited lie between the half's two Ys, so the
   * scanline's end depths lie between the vertex depths.
   */
  lemma {:induction false} NonNegativeRowsEncodable(v1: Vector3, v2: Vector3, v3: Vector3)
    requires v1.y != v3.y && 0.0 <= v1.z && 0.0 <= v2.z && 0.0 <= v3.z
    ensures RowsEncodable(v1, v2, v3, Round(Min(v1.y, v3.y)), Round(Max(v1.y, v3.y)))
  {
    forall row | Round(Min(v1.y, v3.y)) <= row < Round(Max(v1.y, v3.y))
      ensures SpanEncodable(RowSpan(v1, v2, v3, row))
    {
      CentreWithin(Min(v1.y, v3.y), Max(v1.y, v3.y), row);
      var f := Remap(v1.y, v3.y, Centre(row));
      RemapInUnit(v1.y, v3.y, Centre(row));
      LerpBetween(v1.z, v2.z, f);
      LerpBetween(v1.z, v3.z, f);
      NonNegativeSpanEncodable(RowSpan(v1, v2, v3, row));
    }
  }

  /** The three vertices of a draw call after the vertex shader and the viewport, sorted and split. */
  function Prepare(vertices: seq<Vector3>, viewport: Viewport, cb: ConstantBuffer): (h: Halves)
    requires |vertices| >= 3
    ensures h.v1.y <= h.v2.y <= h.v3.y && h.v4.y == h.v2.y
    ensures multiset{h.v1, h.v2, h.v3}
         == multiset{ViewportTransform(viewport, VertexShader(vertices[0], cb)),
                     ViewportTransform(viewport, VertexShader(vertices[1], cb)),
                     ViewportTransform(viewport, VertexShader(vertices[2], cb))}
  {
    SplitSorted(
      ViewportTransform(viewport, VertexShader(vertices[0], cb)),
      ViewportTransform(viewport, VertexShader(vertices[1], cb)),
      ViewportTransform(viewport, VertexShader(vertices[2], cb)))
  }

  /** Every pixel that Rasterize visits in `mode` gets an encodable depth. */
  predicate DrawEncodable(mode: RasterizerMode, h: Halves)
  {
    && (FillsTop(mode) && Round(h.v1.y) < Round(h.v2.y) ==>
          h.v1.y != h.v4.y && RowsEncodable(h.v1, h.v2, h.v4, Round(h.v1.y), Round(h.v2.y)))
    && (FillsBottom(mode) && Round(h.v2.y) < Round(h.v3.y) ==>
          h.v3.y != h.v4.y && RowsEncodable(h.v3, h.v2, h.v4, Round(h.v2.y), Round(h.v3.y)))
  }

  /** Every pixel that Rasterize visits in `mode` lies inside a width x height bitmap and gets an encodable depth. */
  predicate DrawInside(mode: RasterizerMode, h: Halves, width: int, height: int)
  {
    && (FillsTop(mode) ==>
          (Round(h.v1.y) < Round(h.v2.y) ==> h.v1.y != h.v4.y)
          && RowsInside(h.v1, h.v2, h.v4, Round(h.v1.y), Round(h.v2.y), width, height))
    && (FillsBottom(mode) ==>
          (Round(h.v2.y) < Round(h.v3.y) ==> h.v3.y != h.v4.y)
          && RowsInside(h.v3, h.v2, h.v4, Round(h.v2.y), Round(h.v3.y), width, height))
  }

  /** Sorted and split vertices with non-negative depths draw encodable depths everywhere. */
  lemma {:induction false} NonNegativeDrawEncodable(mode: RasterizerMode, a: Vector3, b: Vector3, c: Vector3)
    requires 0.0 <= a.z && 0.0 <= b.z && 0.0 <= c.z
    ensures DrawEncodable(mode, SplitSorted(a, b, c))
  {
    var h := SplitSorted(a, b, c);
    assert h.v1 in multiset{a, b, c} && h.v2 in multiset{a, b, c} && h.v3 in multiset{a, b, c};
    if h.v1.y < h.v3.y {
      SplitVertexBetween(h.v1, h.v2, h.v3);
      assert h.v4 == SplitVertex(h.v1, h.v2, h.v3);
    }
    if h.v1.y < h.v2.y {
      NonNegativeRowsEncodable(h.v1, h.v2, h.v4);
    } else {
      RoundMonotone(h.v2.y, h.v1.y);
    }
    if h.v2.y < h.v3.y {
      NonNegativeRowsEncodable(h.v3, h.v2, h.v4);
    } else {
      RoundMonotone(h.v3.y, h.v2.y);
    }
  }

  /** The effect of Rasterize on pixel (i, j): the top half's rows (if filled), then the bottom half's. */
  function DrawnPixel(mode: RasterizerMode, h: Halves, i: int, j: int, p: Sample, c: Rgb): (q: Sample)
    requires DrawEncodable(mode, h)
    ensures q != p ==> || (FillsTop(mode) && Round(h.v1.y) <= j < Round(h.v2.y))
                       || (FillsBottom(mode) && Round(h.v2.y) <= j < Round(h.v3.y))
  {
    var top := if FillsTop(mode) then RowsPixel(h.v1, h.v2, h.v4, Round(h.v1.y), Round(h.v2.y), i, j, p, c) else p;
    if FillsBottom(mode) then RowsPixel(h.v3, h.v2, h.v4, Round(h.v2.y), Round(h.v3.y), i, j, top, c) else top
  }

  /** Drawing never moves a stored depth farther away. */
  lemma {:induction false} DrawnPixelNeverFarther(mode: RasterizerMode, h: Halves, i: int, j: int, p: Sample, c: Rgb)
    requires DrawEncodable(mode, h)
    ensures DrawnPixel(mode, h, i, j, p, c).depth <= p.depth
  {
    var top := if FillsTop(mode) then RowsPixel(h.v1, h.v2, h.v4, Round(h.v1.y), Round(h.v2.y), i, j, p, c) else p;
    assert top.depth <= p.depth;
  }

  /**
   * Mode gating as in the second variant: Top draws only rows above v2's,
   * Bottom only the others, and Both draws each row as its half's mode would.
   */
  lemma {:induction false} ModeSelectsHalves(h: Halves, i: int, j: int, p: Sample, c: Rgb)
    requires DrawEncodable(Both, h)
    ensures j >= Round(h.v2.y) ==> DrawnPixel(Top, h, i, j, p, c) == p
    ensures j < Round(h.v2.y) ==> DrawnPixel(Bottom, h, i, j, p, c) == p
    ensures DrawnPixel(Both, h, i, j, p, c)
         == if j < Round(h.v2.y) then DrawnPixel(Top, h, i, j, p, c) else DrawnPixel(Bottom, h, i, j, p, c)
  {
  }

  class SoftwareRasterizer {
    const core: SoftwareRasterizerCore

    constructor (width: nat, height: nat)
      ensures fresh(core) && fresh(core.backbuffer) && fresh(core.depthbuffer)
      ensures core.Valid() && core.width == width && core.height == height
      ensures core.rasterizerMode == Both && core.outputMode == Color
    {
      core := new SoftwareRasterizerCore(width, height);
    }

    /**
     * Draws one triangle in the constant buffer's colour: shades, maps,
     * sorts and splits its vertices and fills the halves the rasterizer
     * mode selects.
     */
    method Rasterize(vertices: seq<Vector3>, viewport: Viewport, constantBuffer: ConstantBuffer)
      requires core.Valid() && |vertices| >= 3 && ColorInRange(constantBuffer.color)
      requires DrawInside(core.rasterizerMode, Prepare(vertices, viewport, constantBuffer), core.width, core.height)
      modifies core.backbuffer, core.depthbuffer
      ensures DrawEncodable(core.rasterizerMode, Prepare(vertices, viewport, constantBuffer))
      ensures forall i, j | 0 <= i < core.width && 0 <= j < core.height ::
        core.SampleAt(i, j)
        == DrawnPixel(core.rasterizerMode, Prepare(vertices, viewport, constantBuffer), i, j,
                      old(core.SampleAt(i, j)), ColorOf(constantBuffer.color))
    {
      var v1 := VertexShader(vertices[0], constantBuffer);
      var v2 := VertexShader(vertices[1], constantBuffer);
      var v3 := VertexShader(vertices[2], constantBuffer);

      v1 := ViewportTransform(viewport, v1);
      v2 := ViewportTransform(viewport, v2);
      v3 := ViewportTransform(viewport, v3);

      ghost var h := Prepare(vertices, viewport, constantBuffer);
      v1, v2, v3 := core.SortVerticesAscendingByY(v1, v2, v3);

      var v4 := v2;
      if v1.y != v3.y {
        var s := Remap(v1.y, v3.y, v2.y);
        v4 := v4.(x := Lerp(v1.x, v3.x, s), z := Lerp(v1.z, v3.z, s));
      }
      assert h == Halves(v1, v2, v3, v4);

      if core.rasterizerMode == Top || core.rasterizerMode == Both {
        FillTopTriangle(v1, v2, v4, constantBuffer.color);
      }

      if core.rasterizerMode == Bottom || core.rasterizerMode == Both {
        FillBottomTriangle(v3, v2, v4, constantBuffer.color);
      }
    }

    /** Fills the flat-bottom half with apex v1 and flat edge v2-v3, one pixel row at a time. */
    method FillTopTriangle(v1: Vector3, v2: Vector3, v3: Vector3, color: Vector3)
      requires core.Valid() && ColorInRange(color)
      requires v2.y == v3.y
      requires v1.y <= v3.y && v1.y <= v2.y
      requires RowsInside(v1, v2, v3, Round(v1.y), Round(v2.y), core.width, core.height)
      modifies core.backbuffer, core.depthbuffer
      ensures forall i, j | 0 <= i < core.width && 0 <= j < core.height ::
        core.SampleAt(i, j)
        == RowsPixel(v1, v2, v3, Round(v1.y), Round(v2.y), i, j, old(core.SampleAt(i, j)), ColorOf(color))
    {
      RoundMonotone(v1.y, v2.y);
      var y := Centre(Round(v1.y));
      ghost var row := Round(v1.y);
      while y < Centre(Round(v2.y))
        invariant y == Centre(row) && Round(v1.y) <= row <= Round(v2.y)
        invariant forall i, j | 0 <= i < core.width && 0 <= j < core.height ::
          core.SampleAt(i, j)
          == RowsPixel(v1, v2, v3, Round(v1.y), row, i, j, old(core.SampleAt(i, j)), ColorOf(color))
        decreases Round(v2.y) - row
      {
        assert ScanLine(v1, v2, v3, y) == RowSpan(v1, v2, v3, row);
        FillScanLine(v1, v2, v3, color, y);
        y := y + 1.0;
        row := row + 1;
      }
    }

    /** Fills the flat-top half with apex v1 (below) and flat edge v2-v3, one pixel row at a time. */
    method FillBottomTriangle(v1: Vector3, v2: Vector3, v3: Vector3, color: Vector3)
      requires core.Valid() && ColorInRange(color)
      requires v2.y == v3.y
      requires v1.y >= v3.y && v1.y >= v2.y
      requires RowsInside(v1, v2, v3, Round(v2.y), Round(v1.y), core.width, core.height)
      modifies core.backbuffer, core.depthbuffer
      ensures forall i, j | 0 <= i < core.width && 0 <= j < core.height ::
        core.SampleAt(i, j)
        == RowsPixel(v1, v2, v3, Round(v2.y), Round(v1.y), i, j, old(core.SampleAt(i, j)), ColorOf(color))
    {
      RoundMonotone(v2.y, v1.y);
      var y := Centre(Round(v2.y));
      ghost var row := Round(v2.y);
      while y < Centre(Round(v1.y))
        invariant y == Centre(row) && Round(v2.y) <= row <= Round(v1.y)
        invariant forall i, j | 0 <= i < core.width && 0 <= j < core.height ::
          core.SampleAt(i, j)
          == RowsPixel(v1, v2, v3, Round(v2.y), row, i, j, old(core.SampleAt(i, j)), ColorOf(color))
        decreases Round(v1.y) - row
      {
        assert ScanLine(v1, v2, v3, y) == RowSpan(v1, v2, v3, row);
        FillScanLine(v1, v2, v3, color, y);
        y := y + 1.0;
        row := row + 1;
      }
    }

    /** Computes the scanline at height y and hands it to the line writer with the depth test. */
    method FillScanLine(v1: Vector3, v2: Vector3, v3: Vector3, color: Vector3, y: real)
      requires core.Valid() && ColorInRange(color) && v1.y != v3.y
      requires SpanInside(ScanLine(v1, v2, v3, y), core.width, core.height)
      requires SpanEncodable(ScanLine(v1, v2, v3, y))
      modifies core.backbuffer, core.depthbuffer
      ensures forall i, j | 0 <= i < core.width && 0 <= j < core.height ::
        core.SampleAt(i, j) == LinePixel(ScanLine(v1, v2, v3, y), i, j, old(core.SampleAt(i, j)), ColorOf(color))
    {
      var rmp := Remap(v1.y, v3.y, y);
      var x0 := Lerp(v1.x, v2.x, rmp);
      var x1 := Lerp(v1.x, v3.x, rmp);

      var d0 := Lerp(v1.z, v2.z, rmp);
      var d1 := Lerp(v1.z, v3.z, rmp);

      DrawLineDepthTest(y, x0, x1, d0, d1, color);
    }

    /**
     * Walks the pixel centres of row (int)y between the rounded ends and, at
     * each, writes the interpolated depth and the flat colour where
     * 255 * Min(depth, 1) is at most the stored depth.
     */
    method DrawLineDepthTest(y: real, x0: real, x1: real, depth0: real, depth1: real, color: Vector3)
      requires core.Valid() && ColorInRange(color)
      requires SpanInside(Span(y, x0, x1, depth0, depth1), core.width, core.height)
      requires SpanEncodable(Span(y, x0, x1, depth0, depth1))
      modifies core.backbuffer, core.depthbuffer
      ensures forall i, j | 0 <= i < core.width && 0 <= j < core.height ::
        core.SampleAt(i, j)
        == LinePixel(Span(y, x0, x1, depth0, depth1), i, j, old(core.SampleAt(i, j)), ColorOf(color))
    {
      ghost var line := Span(y, x0, x1, depth0, depth1);
      var t0 := Min(x0, x1);
      var t1 := Max(x0, x1);
      RoundMonotone(t0, t1);
      var x := Centre(Round(t0));
      ghost var col := Round(t0);
      while x < Centre(Round(t1))
        invariant x == Centre(col) && Round(t0) <= col <= Round(t1)
        invariant forall i, j | 0 <= i < core.width && 0 <= j < core.height ::
          core.SampleAt(i, j)
          == if i < col then LinePixel(line, i, j, old(core.SampleAt(i, j)), ColorOf(color)) else old(core.SampleAt(i, j))
        decreases Round(t1) - col
      {
        var depth := Lerp(depth0, depth1, Remap(x0, x1, x));
        assert depth == DepthAt(line, col) && Encodable(depth);
        if 255.0 * Min(depth, 1.0) <= core.depthbuffer[Trunc(x), Trunc(y)] as real {
          core.depthbuffer[Trunc(x), Trunc(y)] := Trunc(255.0 * Min(depth, 1.0)) as Byte;
          core.backbuffer[Trunc(x), Trunc(y)] := ColorOf(color);
        }
        x := x + 1.0;
        col := col + 1;
      }
    }
  }
}
