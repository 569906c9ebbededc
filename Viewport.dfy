/**
 * The viewport transform, written identically in both rasterizer variants:
 * normalized device coordinates ([-1, 1] on X and Y, Y pointing up) become
 * pixel coordinates of the viewport rectangle (Y pointing down); Z is kept.
 */
module Viewports {
  import opened CoreMath

  /** A rectangle of pixels: its top-left corner and its size. */
  datatype Viewport = Viewport(x: int, y: int, width: int, height: int)

  /** Maps X from [-1, 1] to the viewport's columns and Y from [1, -1] to its rows; Z is kept. */
  function ViewportTransform(viewport: Viewport, position: Vector3): (r: Vector3)
    ensures r.z == position.z
  {
    Vector3(
      Lerp(viewport.x as real, (viewport.x + viewport.width) as real, Remap(-1.0, 1.0, position.x)),
      Lerp(viewport.y as real, (viewport.y + viewport.height) as real, Remap(1.0, -1.0, position.y)),
      position.z)
  }

  /** X = -1 goes to the viewport's left edge, whatever Y and Z are. */
  lemma ViewportLeftEdge(viewport: Viewport, p: Vector3)
    requires p.x == -1.0
    ensures ViewportTransform(viewport, p).x == viewport.x as real
  {
    ViewportClosedForm(viewport, p);
  }

  /** Y = 1 goes to the viewport's top edge, whatever X and Z are. */
  lemma ViewportTopEdge(viewport: Viewport, p: Vector3)
    requires p.y == 1.0
    ensures ViewportTransform(viewport, p).y == viewport.y as real
  {
    ViewportClosedForm(viewport, p);
  }

  /** X = 1 goes to the viewport's right edge, whatever Y and Z are. */
  lemma ViewportRightEdge(viewport: Viewport, p: Vector3)
    requires p.x == 1.0
    ensures ViewportTransform(viewport, p).x == (viewport.x + viewport.width) as real
  {
    ViewportClosedForm(viewport, p);
    var w := viewport.width as real;
    assert w * (p.x + 1.0) / 2.0 == w;
  }

  /** Y = -1 goes to the viewport's bottom edge, whatever X and Z are. */
  lemma ViewportBottomEdge(viewport: Viewport, p: Vector3)
    requires p.y == -1.0
    ensures ViewportTransform(viewport, p).y == (viewport.y + viewport.height) as real
  {
    ViewportClosedForm(viewport, p);
    var h := viewport.height as real;
    assert h * (1.0 - p.y) / 2.0 == h;
  }

  /** The same map as a closed form: half the size per unit, measured from the centre, Y flipped. */
  lemma {:induction false} ViewportClosedForm(viewport: Viewport, p: Vector3)
    ensures var r := ViewportTransform(viewport, p);
      && r.x == viewport.x as real + viewport.width as real * (p.x + 1.0) / 2.0
      && r.y == viewport.y as real + viewport.height as real * (1.0 - p.y) / 2.0
  {
    assert Remap(-1.0, 1.0, p.x) == (p.x + 1.0) / 2.0;
    assert Remap(1.0, -1.0, p.y) == (1.0 - p.y) / 2.0;
  }
}
