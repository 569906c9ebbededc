/**
 * The state and helpers shared by both rasterizer variants: the two debug
 * mode machines, the colour and depth bitmaps, clearing, the sort of a
 * triangle's vertices by Y, the split vertex, the plain line writer and the
 * end-of-frame copy. Bitmaps are two-dimensional arrays indexed [x, y]; the
 * depth bitmap keeps only the blue channel, which is all the rasterizer reads.
 */
module RasterizerCore {
  import opened CoreMath

  newtype Byte = x: int | 0 <= x < 256

  /** A colour as the graphics library passes it to Clear: four bytes. */
  datatype Rgba = Rgba(r: Byte, g: Byte, b: Byte, a: Byte)

  /** A bitmap pixel as built from (red, green, blue); its alpha is always opaque and is not kept. */
  datatype Rgb = Rgb(red: Byte, green: Byte, blue: Byte)

  datatype RasterizerMode = Top | Bottom | Both

  datatype OutputMode = Color | Depth

  /** The integer value of each enumeration member, in declaration order. */
  function ModeIndex(m: RasterizerMode): (k: int)
    ensures 0 <= k < 3
  {
    match m
    case Top => 0
    case Bottom => 1
    case Both => 2
  }

  function OutputIndex(o: OutputMode): (k: int)
    ensures 0 <= k < 2
  {
    match o
    case Color => 0
    case Depth => 1
  }

  /** The mode after SwitchMode: the next member, wrapping around. */
  function NextMode(m: RasterizerMode): (n: RasterizerMode)
    ensures ModeIndex(n) == (ModeIndex(m) + 1) % 3
  {
    match m
    case Top => Bottom
    case Bottom => Both
    case Both => Top
  }

  /** The output after SwitchOutput: the other member. */
  function NextOutput(o: OutputMode): (n: OutputMode)
    ensures OutputIndex(n) == (OutputIndex(o) + 1) % 2
  {
    match o
    case Color => Depth
    case Depth => Color
  }

  lemma NextModeCycles(m: RasterizerMode)
    ensures NextMode(m) != m && NextMode(NextMode(m)) != m
    ensures NextMode(NextMode(NextMode(m))) == m
  {
  }

  lemma NextOutputToggles(o: OutputMode)
    ensures NextOutput(o) != o
    ensures NextOutput(NextOutput(o)) == o
  {
  }

  /** Whether Draw fills the top (flat-bottom) half of each triangle in mode `m`. */
  predicate FillsTop(m: RasterizerMode)
  {
    m == Top || m == Both
  }

  /** Whether Draw fills the bottom (flat-top) half of each triangle in mode `m`. */
  predicate FillsBottom(m: RasterizerMode)
  {
    m == Bottom || m == Both
  }

  lemma ModeGating(m: RasterizerMode)
    ensures FillsTop(m) && FillsBottom(m) <==> m == Both
    ensures FillsTop(m) && !FillsBottom(m) <==> m == Top
    ensures !FillsTop(m) && FillsBottom(m) <==> m == Bottom
    ensures FillsTop(m) || FillsBottom(m)
  {
  }

  /** A colour given as three components in [0, 1]. */
  predicate ColorInRange(c: Vector3)
  {
    0.0 <= c.x <= 1.0 && 0.0 <= c.y <= 1.0 && 0.0 <= c.z <= 1.0
  }

  /** The channel value `(int)(255 * c)` of a colour component. */
  function Channel(c: real): (b: Byte)
    requires 0.0 <= c <= 1.0
    ensures b as real <= 255.0 * c < b as real + 1.0
  {
    Trunc(255.0 * c) as Byte
  }

  /** The pixel a flat triangle colour is written as. */
  function ColorOf(c: Vector3): (p: Rgb)
    requires ColorInRange(c)
    ensures p.red == Channel(c.x) && p.green == Channel(c.y) && p.blue == Channel(c.z)
    ensures c == Vector3(1.0, 1.0, 1.0) ==> p == Rgb(255, 255, 255)
    ensures c == Vector3(0.0, 0.0, 0.0) ==> p == Rgb(0, 0, 0)
  {
    Rgb(Channel(c.x), Channel(c.y), Channel(c.z))
  }

  /** The depth sample Clear writes: the largest the channel holds, i.e. far. */
  const FarDepth: Byte := 255

  /**
   * The bitmap pixel Clear paints for colour `c`: its red and blue swapped,
   * because the bitmap is later copied byte for byte into a texture whose
   * channel order is the reverse (see Presented).
   */
  function Background(c: Rgba): (p: Rgb)
    ensures Presented(p) == Rgb(c.r, c.g, c.b)
  {
    Rgb(c.b, c.g, c.r)
  }

  /**
   * What a bitmap pixel shows on screen: the bitmap stores a pixel as the
   * bytes blue, green, red, alpha and the texture reads the same bytes as
   * red, green, blue, alpha.
   */
  function Presented(p: Rgb): (q: Rgb)
    ensures q.green == p.green
  {
    Rgb(p.blue, p.green, p.red)
  }

  /**
   * The pixel the depth bitmap holds for depth sample `d`: the sample is in
   * the blue byte, so on screen it shows as red of that intensity.
   */
  function DepthPixel(d: Byte): (p: Rgb)
    ensures Presented(p) == Rgb(d, 0, 0)
  {
    Rgb(0, 0, d)
  }

  /** Three vertices in the order the three compare-and-swaps of the sort leave them. */
  function SortByY(v1: Vector3, v2: Vector3, v3: Vector3): (r: (Vector3, Vector3, Vector3))
    ensures r.0.y <= r.1.y <= r.2.y
    ensures multiset{r.0, r.1, r.2} == multiset{v1, v2, v3}
  {
    var (a1, a2) := if v1.y > v2.y then (v2, v1) else (v1, v2);
    var (b1, a3) := if a1.y > v3.y then (v3, a1) else (a1, v3);
    var (b2, b3) := if a2.y > a3.y then (a3, a2) else (a2, a3);
    (b1, b2, b3)
  }

  lemma SortByYKeepsSorted(v1: Vector3, v2: Vector3, v3: Vector3)
    requires v1.y <= v2.y <= v3.y
    ensures SortByY(v1, v2, v3) == (v1, v2, v3)
  {
  }

  /**
   * The vertex on the long edge v1-v3 at the height of v2, which splits a
   * triangle sorted by Y into a flat-bottom and a flat-top half.
   */
  function SplitVertex(v1: Vector3, v2: Vector3, v3: Vector3): (v4: Vector3)
    requires v1.y != v3.y
    ensures v4.y == v2.y
  {
    var s := Remap(v1.y, v3.y, v2.y);
    Vector3(Lerp(v1.x, v3.x, s), v2.y, Lerp(v1.z, v3.z, s))
  }

  /**
   * The split vertex lies on the line through v1 and v3: its X and Z are in
   * the same proportion to the rise from v1 as v3's are.
   */
  lemma {:induction false} SplitVertexOnLongEdge(v1: Vector3, v2: Vector3, v3: Vector3)
    requires v1.y != v3.y
    ensures var v4 := SplitVertex(v1, v2, v3);
      && (v4.x - v1.x) * (v3.y - v1.y) == (v3.x - v1.x) * (v2.y - v1.y)
      && (v4.z - v1.z) * (v3.y - v1.y) == (v3.z - v1.z) * (v2.y - v1.y)
  {
    var s := Remap(v1.y, v3.y, v2.y);
    var v4 := SplitVertex(v1, v2, v3);
    assert v4.x - v1.x == (v3.x - v1.x) * s;
    assert v4.z - v1.z == (v3.z - v1.z) * s;
    calc {
      (v3.x - v1.x) * s * (v3.y - v1.y);
      (v3.x - v1.x) * (s * (v3.y - v1.y));
      (v3.x - v1.x) * (v2.y - v1.y);
    }
    calc {
      (v3.z - v1.z) * s * (v3.y - v1.y);
      (v3.z - v1.z) * (s * (v3.y - v1.y));
      (v3.z - v1.z) * (v2.y - v1.y);
    }
  }

  /** For a sorted, non-flat triangle the split vertex lies between v1 and v3. */
  lemma {:induction false} SplitVertexBetween(v1: Vector3, v2: Vector3, v3: Vector3)
    requires v1.y <= v2.y <= v3.y && v1.y < v3.y
    ensures 0.0 <= Remap(v1.y, v3.y, v2.y) <= 1.0
    ensures var v4 := SplitVertex(v1, v2, v3);
      && Min(v1.x, v3.x) <= v4.x <= Max(v1.x, v3.x)
      && Min(v1.z, v3.z) <= v4.z <= Max(v1.z, v3.z)
  {
    var s := Remap(v1.y, v3.y, v2.y);
    RemapInUnit(v1.y, v3.y, v2.y);
    LerpBetween(v1.x, v3.x, s);
    LerpBetween(v1.z, v3.z, s);
  }

  /** The worked example: v1 = (0,0,0), v2 = (2,5,1), v3 = (10,10,2) split at (5,5,1). */
  lemma SplitVertexExample()
    ensures SplitVertex(Vector3(0.0, 0.0, 0.0), Vector3(2.0, 5.0, 1.0), Vector3(10.0, 10.0, 2.0))
         == Vector3(5.0, 5.0, 1.0)
  {
    assert Remap(0.0, 10.0, 5.0) == 0.5;
  }

  /** A triangle sorted by Y and its split vertex, as the draw entry points hand them to the fills. */
  datatype Halves = Halves(v1: Vector3, v2: Vector3, v3: Vector3, v4: Vector3)

  /**
   * Sorts three screen-space vertices and adds the split vertex. When all
   * three share one Y the source's fraction is a division by zero; both fills
   * then visit no rows, and the split vertex is taken to be v2.
   */
  function SplitSorted(a: Vector3, b: Vector3, c: Vector3): (h: Halves)
    ensures h.v1.y <= h.v2.y <= h.v3.y
    ensures multiset{h.v1, h.v2, h.v3} == multiset{a, b, c}
    ensures h.v4.y == h.v2.y
    ensures h.v1.y < h.v3.y ==> Min(h.v1.x, h.v3.x) <= h.v4.x <= Max(h.v1.x, h.v3.x)
  {
    var (v1, v2, v3) := SortByY(a, b, c);
    if v1.y != v3.y then
      SplitVertexBetween(v1, v2, v3);
      Halves(v1, v2, v3, SplitVertex(v1, v2, v3))
    else
      Halves(v1, v2, v3, v2)
  }

  /** The depth sample and the colour stored at one pixel. */
  datatype Sample = Sample(depth: Byte, color: Rgb)

  /** A scanline as handed to the line writers: its Y, its two X ends and the depths there. */
  datatype Span = Span(y: real, x0: real, x1: real, d0: real, d1: real)

  /**
   * Whether the line loop `for x = Round(min) + 0.5; x < Round(max) + 0.5; x++`
   * visits pixel column `col`.
   */
  predicate InSpan(x0: real, x1: real, col: int)
    ensures InSpan(x0, x1, col) ==> x0 != x1 && Min(x0, x1) <= Centre(col) <= Max(x0, x1)
  {
    Round(Min(x0, x1)) <= col < Round(Max(x0, x1))
  }

  lemma InSpanSymmetric(x0: real, x1: real, col: int)
    ensures InSpan(x0, x1, col) <==> InSpan(x1, x0, col)
  {
  }

  /** Whether every pixel the line loop of `s` visits lies inside a width x height bitmap. */
  predicate SpanInside(s: Span, width: int, height: int)
  {
    Round(Min(s.x0, s.x1)) < Round(Max(s.x0, s.x1)) ==>
      0 <= Round(Min(s.x0, s.x1)) && Round(Max(s.x0, s.x1)) <= width && 0 <= Trunc(s.y) < height
  }

  /** The depth interpolated along `s` at the centre of column `col`. */
  function DepthAt(s: Span, col: int): (d: real)
    requires InSpan(s.x0, s.x1, col)
    ensures s.d0 == s.d1 ==> d == s.d0
  {
    Lerp(s.d0, s.d1, Remap(s.x0, s.x1, Centre(col)))
  }

  /** Interpolating along a span gives the same depth whichever end is named first. */
  lemma {:induction false} DepthAtSymmetric(s: Span, col: int)
    requires InSpan(s.x0, s.x1, col)
    ensures InSpan(s.x1, s.x0, col)
    ensures DepthAt(s, col) == DepthAt(Span(s.y, s.x1, s.x0, s.d1, s.d0), col)
  {
    var x := Centre(col);
    var r := Remap(s.x0, s.x1, x);
    var q := Remap(s.x1, s.x0, x);
    RemapComplement(s.x0, s.x1, x);
    assert Lerp(s.d1, s.d0, q) == s.d1 + (s.d0 - s.d1) * (1.0 - r);
  }

  /**
   * The pixel centres a line visits lie between its ends, so the depth
   * interpolated there lies between the depths at the ends.
   */
  lemma {:induction false} DepthAtBetween(s: Span, col: int)
    requires InSpan(s.x0, s.x1, col)
    ensures Min(s.d0, s.d1) <= DepthAt(s, col) <= Max(s.d0, s.d1)
  {
    CentreWithin(Min(s.x0, s.x1), Max(s.x0, s.x1), col);
    if s.x0 < s.x1 {
      RemapInUnit(s.x0, s.x1, Centre(col));
      LerpBetween(s.d0, s.d1, Remap(s.x0, s.x1, Centre(col)));
    } else {
      var t := Span(s.y, s.x1, s.x0, s.d1, s.d0);
      DepthAtSymmetric(s, col);
      RemapInUnit(t.x0, t.x1, Centre(col));
      LerpBetween(t.d0, t.d1, Remap(t.x0, t.x1, Centre(col)));
    }
  }

  /**
   * The rasterizer's state: two debug modes and a colour and a depth bitmap
   * of the output size. The bitmaps are created once; their pixels change.
   */
  class SoftwareRasterizerCore {
    var rasterizerMode: RasterizerMode
    var outputMode: OutputMode
    const width: nat
    const height: nat
    const backbuffer: array2<Rgb>
    const depthbuffer: array2<Byte>

    ghost predicate Valid()
    {
      && backbuffer.Length0 == width && backbuffer.Length1 == height
      && depthbuffer.Length0 == width && depthbuffer.Length1 == height
    }

    /** New bitmaps hold zero in every channel. */
    constructor (width: nat, height: nat)
      ensures Valid()
      ensures this.width == width && this.height == height
      ensures rasterizerMode == Both && outputMode == Color
      ensures fresh(backbuffer) && fresh(depthbuffer)
      ensures forall i, j | 0 <= i < width && 0 <= j < height ::
        backbuffer[i, j] == Rgb(0, 0, 0) && depthbuffer[i, j] == 0
    {
      rasterizerMode := Both;
      outputMode := Color;
      this.width := width;
      this.height := height;
      backbuffer := new Rgb[width, height]((i, j) => Rgb(0, 0, 0));
      depthbuffer := new Byte[width, height]((i, j) => 0);
    }

    /** The depth sample and the colour stored at pixel (i, j). */
    function SampleAt(i: int, j: int): (p: Sample)
      requires Valid() && 0 <= i < width && 0 <= j < height
      reads backbuffer, depthbuffer
      ensures p.depth == depthbuffer[i, j] && p.color == backbuffer[i, j]
    {
      Sample(depthbuffer[i, j], backbuffer[i, j])
    }

    method SwitchMode()
      modifies this
      ensures rasterizerMode == NextMode(old(rasterizerMode))
      ensures outputMode == old(outputMode)
    {
      rasterizerMode := NextMode(rasterizerMode);
    }

    method SwitchOutput()
      modifies this
      ensures outputMode == NextOutput(old(outputMode))
      ensures rasterizerMode == old(rasterizerMode)
    {
      outputMode := NextOutput(outputMode);
    }

    /** Paints the whole colour bitmap with the background and the whole depth bitmap far. */
    method Clear(c: Rgba)
      requires Valid()
      modifies backbuffer, depthbuffer
      ensures forall i, j | 0 <= i < width && 0 <= j < height ::
        backbuffer[i, j] == Background(c) && depthbuffer[i, j] == FarDepth
    {
      forall i, j | 0 <= i < width && 0 <= j < height {
        backbuffer[i, j] := Background(c);
      }
      forall i, j | 0 <= i < width && 0 <= j < height {
        depthbuffer[i, j] := FarDepth;
      }
    }

    /** Orders three vertices by ascending Y with three compare-and-swaps. */
    method SortVerticesAscendingByY(v1: Vector3, v2: Vector3, v3: Vector3)
      returns (w1: Vector3, w2: Vector3, w3: Vector3)
      ensures w1.y <= w2.y <= w3.y
      ensures multiset{w1, w2, w3} == multiset{v1, v2, v3}
      ensures v1.y <= v2.y <= v3.y ==> (w1, w2, w3) == (v1, v2, v3)
      ensures (w1, w2, w3) == SortByY(v1, v2, v3)
    {
      w1, w2, w3 := v1, v2, v3;
      var tmp: Vector3;
      if w1.y > w2.y {
        tmp := w1;
        w1 := w2;
        w2 := tmp;
      }
      if w1.y > w3.y {
        tmp := w1;
        w1 := w3;
        w3 := tmp;
      }
      if w2.y > w3.y {
        tmp := w2;
        w2 := w3;
        w3 := tmp;
      }
    }

    /**
     * Writes the flat colour on row (int)y at the pixel centres from
     * Round(min(x0, x1)) + 0.5 up to Round(max(x0, x1)) + 0.5; the depth
     * bitmap is not touched.
     */
    method DrawLine(y: real, x0: real, x1: real, color: Vector3)
      requires Valid() && ColorInRange(color)
      requires SpanInside(Span(y, x0, x1, 0.0, 0.0), width, height)
      modifies backbuffer
      ensures forall i, j | 0 <= i < width && 0 <= j < height ::
        backbuffer[i, j] == if j == Trunc(y) && InSpan(x0, x1, i) then ColorOf(color) else old(backbuffer[i, j])
    {
      var t0 := Min(x0, x1);
      var t1 := Max(x0, x1);
      RoundMonotone(t0, t1);
      var x := Centre(Round(t0));
      ghost var col := Round(t0);
      while x < Centre(Round(t1))
        invariant x == Centre(col) && Round(t0) <= col <= Round(t1)
        invariant forall i, j | 0 <= i < width && 0 <= j < height ::
          backbuffer[i, j] == if j == Trunc(y) && Round(t0) <= i < col then ColorOf(color) else old(backbuffer[i, j])
        decreases Round(t1) - col
      {
        backbuffer[Trunc(x), Trunc(y)] := ColorOf(color);
        x := x + 1.0;
        col := col + 1;
      }
    }

    /**
     * What the frame shows: the colour or the depth bitmap, chosen by the
     * output mode, as the texture reads its bytes.
     */
    function Shown(i: int, j: int): (q: Rgb)
      requires Valid() && 0 <= i < width && 0 <= j < height
      reads this, backbuffer, depthbuffer
      ensures outputMode == Color ==> Presented(q) == backbuffer[i, j]
      ensures outputMode == Depth ==> q == Rgb(depthbuffer[i, j], 0, 0)
    {
      if outputMode == Color then Presented(backbuffer[i, j]) else Presented(DepthPixel(depthbuffer[i, j]))
    }

    /** Copies the bitmap the output mode selects, row by row, into a new screen texture. */
    method EndFrame() returns (screen: array2<Rgb>)
      requires Valid()
      ensures fresh(screen) && screen.Length0 == width && screen.Length1 == height
      ensures forall i, j | 0 <= i < width && 0 <= j < height :: screen[i, j] == Shown(i, j)
    {
      screen := new Rgb[width, height]((i, j) => Rgb(0, 0, 0));
      var y := 0;
      while y < height
        invariant 0 <= y <= height
        invariant forall i, j | 0 <= i < width && 0 <= j < y :: screen[i, j] == Shown(i, j)
      {
        var x := 0;
        while x < width
          invariant 0 <= x <= width
          invariant forall i, j | 0 <= i < width && 0 <= j < y :: screen[i, j] == Shown(i, j)
          invariant forall i | 0 <= i < x :: screen[i, y] == Shown(i, y)
        {
          screen[x, y] := if outputMode == Color then Presented(backbuffer[x, y])
                          else Presented(DepthPixel(depthbuffer[x, y]));
          x := x + 1;
        }
        y := y + 1;
      }
    }
  }

  /** A far depth sample shows as full red when the depth bitmap is presented. */
  lemma FarDepthShowsRed()
    ensures Presented(DepthPixel(FarDepth)) == Rgb(255, 0, 0)
  {
  }
}
