# A verified model of a CPU triangle rasterizer

This project models the software rasterizer of the AlphaBlendingTriangles
demos in Dafny. The rasterizer has two variants.

- **Demo2** (`SoftwareRasterizerCore` plus `SoftwareRasterizer`):
  - transforms three vertices by a 4x4 world-view-projection matrix, without a divide by W;
  - maps them through the viewport, flipping Y;
  - sorts them by Y with three compare-and-swaps;
  - adds a split vertex `v4` on the long edge at the height of `v2`;
  - fills the flat-bottom "top" half and the flat-top "bottom" half scanline by scanline, at pixel centres;
  - runs a strict depth test, so a pixel is written only where the stored 8-bit depth is greater than the new one.
- **Demo1** (`SoftwareRasterizer` of the first demo) differs in three places:
  - its vertex shader scales X and Y and offsets X, Y and Z by a constant buffer;
  - its scanline fraction is measured against the third vertex;
  - its depth test writes where `255 * Min(depth, 1)` is at most the stored depth, so ties overwrite.

Two small mode machines gate what happens. `RasterizerMode` cycles Top → Bottom → Both and selects the halves that are filled. `OutputMode` toggles Color ↔ Depth and selects the bitmap shown at the end of a frame.

Files:

- `CoreMath.dfy` (module `CoreMath`) holds the scalar helpers:
  - the vector types;
  - `Remap(a, b, t) = (t - a) / (b - a)` and `Lerp(a, b, s) = a + (b - a) * s`;
  - the rounding (`Math.Round`, half to even) and the `(int)` truncation toward zero that turn coordinates into pixel indices and depth samples.
- `RasterizerCore.dfy` (module `RasterizerCore`) holds the state and helpers that both variants share:
  - the modes;
  - the colour and depth bitmaps as `array2` fields of class `SoftwareRasterizerCore`;
  - `Clear`, the vertex sort, the split vertex, the plain `DrawLine` and the end-of-frame copy.
- `Viewport.dfy` (module `Viewports`) holds the viewport transform, which both variants write identically.
- `Demo2.dfy` and `Demo1.dfy` hold the two variants. Each has its own class `SoftwareRasterizer`, which owns a `SoftwareRasterizerCore` (the source's base class) in `core`.

Every fill changes a pixel only as a function of that pixel's own stored depth and colour. So the new state a fill method leaves is stated pixel by pixel, from the pixel's old sample:

- `LinePixel` gives the effect of one scanline;
- `RowsPixel` gives the effect of a run of pixel rows;
- `DrawnPixel` gives the effect of a whole triangle.

Lemmas state what these functions promise.

## Model

| member | source | states |
|---|---|---|
| CoreMath.Remap | Demo2/Demo2/SoftwareRasterizer.cs:32 | the fraction s satisfies s * (b - a) = t - a, and it is 0 at a and 1 at b |
| CoreMath.Lerp | Demo2/Demo2/SoftwareRasterizer.cs:33 | the fraction 0 gives a, the fraction 1 gives b, and equal ends give that end |
| CoreMath.Round | Demo2/Demo2/SoftwareRasterizer.cs:79 | the result is within 0.5 of x, and a halfway value goes to the even neighbour |
| CoreMath.Trunc | Demo2/Demo2/SoftwareRasterizer.cs:107 | the `(int)` cast drops the fraction toward zero, for either sign |
| CoreMath.Clamp | Demo2/Demo2/SoftwareRasterizer.cs:109 | the result lies in [lo, hi], equals the value inside the interval, and equals the nearer bound outside it |
| CoreMath.Min | Demo1/Demo1/SoftwareRasterizer.cs:99 | the result is at most both arguments and equals one of them |
| CoreMath.Max | Demo1/Demo1/SoftwareRasterizer.cs:100 | the result is at least both arguments and equals one of them |
| CoreMath.Centre | Demo2/Demo2/SoftwareRasterizer.cs:101-107 | the centre k + 0.5 a loop visits lies strictly inside pixel k, and `(int)` of it gives back k for k >= 0 |
| CoreMath.RoundMonotone | Demo2/Demo2/SoftwareRasterizer.cs:101 | rounding keeps order, so every span loop has a non-negative trip count |
| CoreMath.CentreWithin | Demo2/Demo2/SoftwareRasterizer.cs:79 | every centre a loop from Round(a) to Round(b) visits lies in [a, b] |
| CoreMath.RemapInUnit | Demo2/Demo2/SoftwareRasterizer.cs:104 | a value between the ends, in either order, remaps into [0, 1] |
| CoreMath.RemapComplement | Demo2/Demo2/SoftwareRasterizer.cs:104 | remapping from either end gives fractions that add up to one |
| CoreMath.LerpBetween | Demo2/Demo2/SoftwareRasterizer.cs:105 | a fraction in [0, 1] interpolates to a value between the ends |
| RasterizerCore.ModeIndex | Demo2/Demo2/SoftwareRasterizerCore.cs:15-20 | the enumeration values of Top, Bottom and Both are 0, 1 and 2 |
| RasterizerCore.OutputIndex | Demo2/Demo2/SoftwareRasterizerCore.cs:23-27 | the enumeration values of Color and Depth are 0 and 1 |
| RasterizerCore.NextMode | Demo2/Demo2/SoftwareRasterizerCore.cs:73 | the next mode's value is (value + 1) % 3 |
| RasterizerCore.NextOutput | Demo2/Demo2/SoftwareRasterizerCore.cs:78 | the next output's value is (value + 1) % 2 |
| RasterizerCore.NextModeCycles | Demo2/Demo2/SoftwareRasterizerCore.cs:71-74 | one or two switches change the mode, and three switches return to the start |
| RasterizerCore.NextOutputToggles | Demo2/Demo2/SoftwareRasterizerCore.cs:76-79 | one switch changes the output, and two switches are the identity |
| RasterizerCore.ModeGating | Demo2/Demo2/SoftwareRasterizer.cs:36-40 | Both fills both halves, Top fills only the top, Bottom fills only the bottom, and every mode fills something |
| RasterizerCore.Channel | Demo2/Demo2/SoftwareRasterizer.cs:111 | `(int)(255 * c)` is the whole part of 255 * c and fits a byte |
| RasterizerCore.ColorOf | Demo2/Demo2/SoftwareRasterizer.cs:111 | each channel is that component's `(int)(255 * c)`; white (1, 1, 1) is (255, 255, 255) and black is (0, 0, 0) |
| RasterizerCore.Background | Demo2/Demo2/SoftwareRasterizerCore.cs:84 | the pixel built as FromArgb(B, G, R) shows as the requested (R, G, B) once presented |
| RasterizerCore.Presented | Demo2/Demo2/SoftwareRasterizerCore.cs:105-111 | the byte-for-byte copy reads the bitmap's blue, green, red bytes as red, green, blue; the contract states that green is kept, and Background, DepthPixel and Shown state the red and blue exchange |
| RasterizerCore.DepthPixel | Demo2/Demo2/SoftwareRasterizer.cs:109 | the depth bitmap pixel FromArgb(0, 0, d) shows on screen as red of intensity d, green and blue zero |
| RasterizerCore.FarDepthShowsRed | Demo2/Demo2/SoftwareRasterizerCore.cs:88 | a cleared depth pixel, blue 255, shows as full red in Depth output |
| RasterizerCore.SortByY | Demo2/Demo2/SoftwareRasterizerCore.cs:119-143 | the three compare-and-swaps leave the vertices ascending by Y, and the result is a permutation of the input |
| RasterizerCore.SortByYKeepsSorted | Demo2/Demo2/SoftwareRasterizerCore.cs:123-142 | an input already sorted by Y comes back unchanged |
| RasterizerCore.SplitVertex | Demo2/Demo2/SoftwareRasterizer.cs:31-34 | the split vertex has v2's Y |
| RasterizerCore.SplitVertexOnLongEdge | Demo2/Demo2/SoftwareRasterizer.cs:31-34 | the split vertex lies on line v1-v3: its rise in X and in Z is proportional to its rise in Y |
| RasterizerCore.SplitVertexBetween | Demo2/Demo2/SoftwareRasterizer.cs:32-34 | for sorted, non-flat vertices the fraction is in [0, 1], and v4's X and Z lie between v1's and v3's |
| RasterizerCore.SplitVertexExample | Demo1/Demo1/SoftwareRasterizer.cs:27-30 | v1 = (0,0,0), v2 = (2,5,1), v3 = (10,10,2) split at (5,5,1) |
| RasterizerCore.SplitSorted | Demo2/Demo2/SoftwareRasterizer.cs:28-34 | the sorted and split vertices are ascending, a permutation of the input, v4 shares v2's Y and lies between v1 and v3 in X |
| RasterizerCore.InSpanSymmetric | Demo2/Demo2/SoftwareRasterizerCore.cs:145-150 | DrawLine and the depth-tested line writers visit the same columns whichever order their two ends are given in |
| RasterizerCore.InSpan | Demo2/Demo2/SoftwareRasterizerCore.cs:150 | a column the loop from Round(min) + 0.5 visits has distinct ends, so its remap is defined, and its centre lies between the two ends |
| RasterizerCore.DepthAt | Demo2/Demo2/SoftwareRasterizer.cs:104-105 | the depth along a line of constant depth is that depth |
| RasterizerCore.DepthAtSymmetric | Demo2/Demo2/SoftwareRasterizer.cs:98-105 | swapping the ends and their depths gives the same depth at every column |
| RasterizerCore.DepthAtBetween | Demo2/Demo2/SoftwareRasterizer.cs:101-105 | the interpolated depth at every visited column lies between the end depths |
| RasterizerCore.SoftwareRasterizerCore.constructor | Demo2/Demo2/SoftwareRasterizerCore.cs:36-62 | a new core is in mode Both with output Color and has two fresh width x height bitmaps |
| RasterizerCore.SoftwareRasterizerCore.SwitchMode | Demo2/Demo2/SoftwareRasterizerCore.cs:71-74 | the mode becomes NextMode of the old mode, and the output mode is unchanged |
| RasterizerCore.SoftwareRasterizerCore.SwitchOutput | Demo2/Demo2/SoftwareRasterizerCore.cs:76-79 | the output becomes NextOutput of the old output, and the rasterizer mode is unchanged |
| RasterizerCore.SoftwareRasterizerCore.Clear | Demo2/Demo2/SoftwareRasterizerCore.cs:81-90 | every colour pixel is the background and every depth pixel is 255 (far); the new state does not depend on the old one, so Clear is idempotent |
| RasterizerCore.SoftwareRasterizerCore.SortVerticesAscendingByY | Demo2/Demo2/SoftwareRasterizerCore.cs:119-143 | the result is ascending by Y, a permutation of the input, the input itself when already sorted, and equal to SortByY |
| RasterizerCore.SoftwareRasterizerCore.DrawLine | Demo2/Demo2/SoftwareRasterizerCore.cs:145-152 | exactly the pixels of row (int)y whose columns lie from Round(min) to before Round(max) take the colour; every other pixel is unchanged |
| RasterizerCore.SoftwareRasterizerCore.Shown | Demo2/Demo2/SoftwareRasterizerCore.cs:96 | in Color output the frame shows the colour bitmap as the texture reads it; in Depth output it shows red of the stored depth |
| RasterizerCore.SoftwareRasterizerCore.EndFrame | Demo2/Demo2/SoftwareRasterizerCore.cs:94-117 | the frame holds the bitmap the output mode selects, pixel for pixel as the texture reads it |
| Viewports.ViewportTransform | Demo2/Demo2/SoftwareRasterizer.cs:49-55 | Z passes through unchanged |
| Viewports.ViewportLeftEdge | Demo2/Demo2/SoftwareRasterizer.cs:52 | X = -1 maps to viewport.X |
| Viewports.ViewportRightEdge | Demo2/Demo2/SoftwareRasterizer.cs:52 | X = 1 maps to viewport.X + Width |
| Viewports.ViewportTopEdge | Demo2/Demo2/SoftwareRasterizer.cs:53 | Y = 1 maps to viewport.Y, because Y is flipped |
| Viewports.ViewportBottomEdge | Demo2/Demo2/SoftwareRasterizer.cs:53 | Y = -1 maps to viewport.Y + Height |
| Viewports.ViewportClosedForm | Demo1/Demo1/SoftwareRasterizer.cs:52-58 | the map is X' = X0 + W (x + 1) / 2 and Y' = Y0 + H (1 - y) / 2; the first variant uses the same transform |
| Demo2.Transform | Demo2/Demo2/SoftwareRasterizer.cs:46 | `Vector4.Transform` with the identity matrix is the identity, and with a translation matrix it adds the offset to a point with W = 1 |
| Demo2.VertexShaderIgnoresW | Demo2/Demo2/SoftwareRasterizer.cs:43-47 | without a divide by W, the matrix's fourth column has no effect |
| Demo2.VertexShader | Demo2/Demo2/SoftwareRasterizer.cs:43-47 | the point (x, y, z, 1) is transformed and W dropped; the identity matrix leaves a vertex where it is |
| Demo2.VertexShaderTranslation | Demo2/Demo2/SoftwareRasterizer.cs:43-47 | a translation matrix (row vectors) adds its offset |
| Demo2.ScanLine | Demo2/Demo2/SoftwareRasterizer.cs:60-66 | the scanline lies at the requested y |
| Demo2.ScanLineAtApex | Demo2/Demo2/SoftwareRasterizer.cs:60-66 | at y = v1.Y the fraction is 0, so x0 = x1 = v1.X and d0 = d1 = v1.Z |
| Demo2.ScanLineAtFlatEdge | Demo2/Demo2/SoftwareRasterizer.cs:60-66 | at y = v2.Y the scanline is the flat edge v2-v3 |
| Demo2.HalvesMeetAtSplit | Demo2/Demo2/SoftwareRasterizer.cs:36-40 | the top and bottom halves compute the same scanline at v2's height |
| Demo2.ScanLineOnEdges | Demo2/Demo2/SoftwareRasterizer.cs:60-62 | the scanline's ends lie on edges v1-v2 and v1-v3 |
| Demo2.Encode | Demo2/Demo2/SoftwareRasterizer.cs:109 | the written sample is the whole part of 255 * Clamp(d, 0, 1), and equals (int)(255 d) for d in [0, 1] |
| Demo2.Passes | Demo2/Demo2/SoftwareRasterizer.cs:107 | for d in [0, 1] the test passes exactly where the encoded depth is below the stored one; a depth of 1 or more never passes; a negative depth passes over any non-zero sample |
| Demo2.DepthTest | Demo2/Demo2/SoftwareRasterizer.cs:107-112 | a pixel whose stored depth exceeds (int)(255 d) gets the encoded depth and the colour; any other pixel is unchanged; the stored depth never grows |
| Demo2.TiesKeepStored | Demo2/Demo2/SoftwareRasterizer.cs:107 | a depth that encodes to the stored sample never overwrites it |
| Demo2.DepthTestOrderIndependent | Demo2/Demo2/SoftwareRasterizer.cs:107-112 | two depths in [0, 1] with different encodings leave the same pixel in either drawing order |
| Demo2.NearerWinsExample | Demo2/Demo2/SoftwareRasterizer.cs:107-112 | over a cleared pixel, depth 0.2 (sample 51) beats depth 0.8 in either order |
| Demo2.LinePixel | Demo2/Demo2/SoftwareRasterizer.cs:96-117 | only row (int)y inside the span can change, and each of those pixels gets the depth test at its interpolated depth |
| Demo2.RowSpan | Demo2/Demo2/SoftwareRasterizer.cs:79-81 | row r is scanned at y = r + 0.5 |
| Demo2.RowsPixel | Demo2/Demo2/SoftwareRasterizer.cs:74-94 | only rows from lo to before hi can change |
| Demo2.Prepare | Demo2/Demo2/SoftwareRasterizer.cs:19-34 | the shaded and mapped vertices come back sorted by Y, as a permutation, with the split vertex at v2's Y |
| Demo2.DrawnPixel | Demo2/Demo2/SoftwareRasterizer.cs:36-40 | a pixel changes only in a row of a half the mode fills: Round(v1.Y) to before Round(v2.Y) for the top, Round(v2.Y) to before Round(v3.Y) for the bottom |
| Demo2.DrawnPixelNeverFarther | Demo2/Demo2/SoftwareRasterizer.cs:17-41 | drawing a triangle never makes a stored depth farther |
| Demo2.ModeSelectsHalves | Demo2/Demo2/SoftwareRasterizer.cs:36-40 | Top changes only rows above Round(v2.Y), Bottom only the others, and Both acts on each row as its half's mode |
| Demo2.FlatTriangleDrawsNothing | Demo2/Demo2/SoftwareRasterizer.cs:74-94 | a triangle whose three vertices share one Y changes no pixel |
| Demo2.SoftwareRasterizer.constructor | Demo2/Demo2/SoftwareRasterizer.cs:15 | the rasterizer starts with a fresh core in mode Both and output Color |
| Demo2.SoftwareRasterizer.Draw | Demo2/Demo2/SoftwareRasterizer.cs:17-41 | every pixel ends as DrawnPixel of its old sample for the shaded, mapped, sorted and split triangle in white, in the current mode |
| Demo2.SoftwareRasterizer.FillScanLine | Demo2/Demo2/SoftwareRasterizer.cs:57-72 | every pixel ends as LinePixel of the scanline at y, with fraction Remap(v1.Y, v2.Y, y) |
| Demo2.SoftwareRasterizer.FillTopTriangle | Demo2/Demo2/SoftwareRasterizer.cs:74-83 | with v2.Y = v3.Y and v1 above, rows Round(v1.Y) to before Round(v2.Y) are filled; nothing else changes |
| Demo2.SoftwareRasterizer.FillBottomTriangle | Demo2/Demo2/SoftwareRasterizer.cs:85-94 | with v2.Y = v3.Y and v1 below, rows Round(v2.Y) to before Round(v1.Y) are filled; nothing else changes |
| Demo2.SoftwareRasterizer.DrawLineDepthTest | Demo2/Demo2/SoftwareRasterizer.cs:96-117 | every pixel ends as LinePixel of the span: the strict depth test on row (int)y inside the span, unchanged elsewhere |
| Demo1.VertexShader | Demo1/Demo1/SoftwareRasterizer.cs:40-50 | Z is only offset by offsetScale.Z and is not scaled |
| Demo1.VertexShaderIdentity | Demo1/Demo1/SoftwareRasterizer.cs:40-50 | scale 1 with no offset leaves a vertex where it is |
| Demo1.VertexShaderAsMatrix | Demo1/Demo1/SoftwareRasterizer.cs:42-47 | the affine shader equals the matrix shader of Demo2 with the matrix diag(W, W, 1, 1) plus the offset row (X, Y, Z, 1) |
| Demo1.VertexShaderKeepsOrder | Demo1/Demo1/SoftwareRasterizer.cs:42-46 | with a positive scale, two vertices keep their order by Y |
| Demo1.ScanLine | Demo1/Demo1/SoftwareRasterizer.cs:83-93 | the scanline lies at the requested y |
| Demo1.ScanLineAgrees | Demo1/Demo1/SoftwareRasterizer.cs:85 | under the asserted v2.Y = v3.Y, the fraction against v3 gives the same scanline as Demo2's fraction against v2 |
| Demo1.Scaled | Demo1/Demo1/SoftwareRasterizer.cs:108 | 255 * Min(d, 1) is at most 255, and equals 255 d for d <= 1 |
| Demo1.Encode | Demo1/Demo1/SoftwareRasterizer.cs:110 | the written sample is the whole part of 255 * Min(d, 1); it is 0 for small negative depths and equals Demo2's sample for d in [0, 1] |
| Demo1.DepthTest | Demo1/Demo1/SoftwareRasterizer.cs:108-112 | a pixel whose stored depth is at least 255 * Min(d, 1) gets the encoded depth and the colour; any other pixel is unchanged; the stored depth never grows |
| Demo1.Passes | Demo1/Demo1/SoftwareRasterizer.cs:108 | a passing depth in [0, 1] has an encoding no greater than the stored sample; a depth of 1 or more passes only over a far (255) sample; a depth of 0 or less always passes |
| Demo1.NonNegativeEncodable | Demo1/Demo1/SoftwareRasterizer.cs:110 | a non-negative depth never makes FromArgb see a negative component |
| Demo1.PassesVersusStrict | Demo1/Demo1/SoftwareRasterizer.cs:108 | for d in [0, 1] the test passes exactly where Demo2's passes, plus where 255 d equals the stored sample |
| Demo1.TiesOverwrite | Demo1/Demo1/SoftwareRasterizer.cs:108-112 | a depth that scales exactly to the stored sample overwrites the colour, where Demo2 keeps the pixel |
| Demo1.RedrawSameDepth | Demo1/Demo1/SoftwareRasterizer.cs:108-112 | drawing one depth twice, the second colour wins exactly when 255 d is a whole number |
| Demo1.BeyondFarPlane | Demo1/Demo1/SoftwareRasterizer.cs:108-110 | a depth above 1 still passes over a far (255) pixel and writes 255, where Demo2 never writes it |
| Demo1.NonNegativeSpanEncodable | Demo1/Demo1/SoftwareRasterizer.cs:106-110 | a line whose end depths are non-negative writes an encodable depth at every column |
| Demo1.LinePixel | Demo1/Demo1/SoftwareRasterizer.cs:97-115 | only row (int)y inside the span can change, and each of those pixels gets the depth test at its interpolated depth |
| Demo1.RowSpan | Demo1/Demo1/SoftwareRasterizer.cs:66-68 | row r is scanned at y = r + 0.5 |
| Demo1.RowsPixel | Demo1/Demo1/SoftwareRasterizer.cs:61-81 | only rows from lo to before hi can change |
| Demo1.NonNegativeRowsEncodable | Demo1/Demo1/SoftwareRasterizer.cs:85-90 | a half whose vertex depths are non-negative writes encodable depths in every row it fills |
| Demo1.Prepare | Demo1/Demo1/SoftwareRasterizer.cs:16-30 | the shaded and mapped vertices come back sorted by Y, as a permutation, with the split vertex at v2's Y |
| Demo1.NonNegativeDrawEncodable | Demo1/Demo1/SoftwareRasterizer.cs:24-36 | after the sort and split, non-negative vertex depths keep every depth the triangle writes encodable |
| Demo1.DrawnPixel | Demo1/Demo1/SoftwareRasterizer.cs:32-36 | a pixel changes only in a row of a half the mode fills, exactly as in Demo2 |
| Demo1.DrawnPixelNeverFarther | Demo1/Demo1/SoftwareRasterizer.cs:14-38 | drawing a triangle never makes a stored depth farther |
| Demo1.ModeSelectsHalves | Demo1/Demo1/SoftwareRasterizer.cs:32-36 | mode gating selects the halves exactly as in Demo2 |
| Demo1.SoftwareRasterizer.constructor | Demo1/Demo1/SoftwareRasterizer.cs:12 | the rasterizer starts with a fresh core in mode Both and output Color |
| Demo1.SoftwareRasterizer.Rasterize | Demo1/Demo1/SoftwareRasterizer.cs:14-38 | every pixel ends as DrawnPixel of its old sample for the shaded, mapped, sorted and split triangle in the constant buffer's colour |
| Demo1.SoftwareRasterizer.FillTopTriangle | Demo1/Demo1/SoftwareRasterizer.cs:61-70 | the same rows as Demo2, Round(v1.Y) to before Round(v2.Y), under Demo2's preconditions plus that every depth the rows visit is encodable (`RowsEncodable`, part of `RowsInside`) |
| Demo1.SoftwareRasterizer.FillBottomTriangle | Demo1/Demo1/SoftwareRasterizer.cs:72-81 | the same rows as Demo2, Round(v2.Y) to before Round(v1.Y), under Demo2's preconditions plus that every depth the rows visit is encodable (`RowsEncodable`, part of `RowsInside`) |
| Demo1.SoftwareRasterizer.FillScanLine | Demo1/Demo1/SoftwareRasterizer.cs:83-93 | every pixel ends as LinePixel of the scanline at y, with the single fraction Remap(v1.Y, v3.Y, y) |
| Demo1.SoftwareRasterizer.DrawLineDepthTest | Demo1/Demo1/SoftwareRasterizer.cs:97-115 | every pixel ends as LinePixel of the span: the at-most depth test on row (int)y inside the span, unchanged elsewhere |

## Left out

- Floating point: coordinates are `real`. The model does not follow single-precision rounding, NaN or infinities. It does not follow the `(int)` cast of floats beyond the int range either.
- The 3D device, swap chain, shaders, camera and timers are not modelled: Demo2/Demo2/Renderer.cs, AlphaBlending/Demo1/Renderer.cs and Demo2/Demo2/Program.cs are not part of this model.
- The first demo's own `SoftwareRasterizerCore` is not part of this model. `Demo1` reuses the `RasterizerCore` state and helpers, which the first demo calls under the same names.
- The CoreMath helper class is not part of this model. `Remap`, `Lerp` and `Clamp` are defined from their use.
- `Vector4.Transform` is written as the row vector times a 4x4 matrix, keeping X, Y and Z; no other matrix operation is modelled.
- The `Bitmap` API (GetPixel, SetPixel, FillRectangle, LockBits) becomes two `array2` fields. The alpha channel is not kept: every pixel the rasterizer writes is opaque.
- `Dispose` is not modelled: it only releases the bitmaps and the texture.
- RasterizerCore.SoftwareRasterizerCore.EndFrame: the staging texture, the map and unmap calls and the address arithmetic are left out. The model returns a fresh grid holding each pixel as the texture reads its bytes. The source advances the bitmap address by the texture's RowPitch and the texture address by the bitmap's Stride (Demo2/Demo2/SoftwareRasterizerCore.cs:109-110); the model copies row y to row y, which is what the copy does when the two pitches are equal, and does not capture the result when they differ.
- A triangle whose three vertices share one Y makes the split fraction a division by zero. The model takes the split vertex to be v2, and both fills then visit no row, as `FlatTriangleDrawsNothing` states.
- The source does not check pixel indices. The draw methods require that every pixel they visit lies inside the bitmaps (`SpanInside`, `RowsInside`, `DrawInside`). `SpanInside` also asks that Round(min) be at least 0. The source does not: with Round(min) = -1 its loop visits the centre -0.5, and `(int)(-0.5)` is 0, so column 0 is visited twice and the depth test runs on it twice in one line. The model does not capture that double visit. `RowsInside` likewise asks that the first row, Round(v1.Y), be at least 0: with Round(v1.Y) = -1 the fill scans y = -0.5, which `(int)` also sends to row 0, so row 0 would get two scanlines; the model does not capture that either.
- Colours are required to have components in [0, 1] (`ColorInRange`). `(int)(255 * c)` is a valid byte for a slightly wider range, -1/255 < c < 256/255; the model keeps the narrower interval, which every caller meets: Demo2 draws in white (Demo2/Demo2/SoftwareRasterizer.cs:19) and the first demo scales random components in [0, 1] by a factor s = 1 - ii / 32 in [0, 1), where `SHUFFLE_TRIANGLES` is defined and ii runs over 1 to 32 (AlphaBlending/Demo1/Renderer.cs:2, 278, 284, 287 and 315).
- Demo1.SoftwareRasterizer.Rasterize: the first variant writes `(int)(255 * Min(depth, 1))` with no lower clamp. A depth at or below -1/255 passes the test and then makes `FromArgb` throw. The model requires every visited depth to be encodable instead (`DrawInside` includes `RowsEncodable`). `NonNegativeDrawEncodable` shows that non-negative vertex depths are enough.
- The `#else` branches of Demo2/Demo2/SoftwareRasterizer.cs (the fill without a depth test) are not modelled, because both switches are defined at the top of the file.
