/** Zoom control and the perspective projection the widget sets up from the
    largest grid extent and the zoom factor. */
module Projection {
  import opened Numerics

  /** Limits of the raw zoom value the mouse wheel may reach. */
  const ZoomLimit: int := 100

  /** `setZoom`: the raw control value mapped to a multiplicative factor,
      `raw / -100 + 1`. */
  function ZoomFactor(raw: int): real
  {
    raw as real / -100.0 + 1.0
  }

  /** The factor decreases by 1/100 per raw step, is 1 at 0, and over the
      control's range [-100, 100] runs from 2 down to 0. */
  lemma ZoomFactorRange(raw: int)
    ensures ZoomFactor(raw) == 1.0 - raw as real / 100.0
    ensures ZoomFactor(raw + 1) == ZoomFactor(raw) - 0.01
    ensures -ZoomLimit <= raw <= ZoomLimit ==> 0.0 <= ZoomFactor(raw) <= 2.0
    ensures ZoomFactor(0) == 1.0 && ZoomFactor(ZoomLimit) == 0.0 && ZoomFactor(-ZoomLimit) == 2.0
  {
  }

  /** The clamp `wheelEvent` applies after adding the wheel step. */
  function ClampZoom(raw: int): (r: int)
    ensures -ZoomLimit <= r <= ZoomLimit
    ensures -ZoomLimit <= raw <= ZoomLimit ==> r == raw
    ensures raw > ZoomLimit ==> r == ZoomLimit
    ensures raw < -ZoomLimit ==> r == -ZoomLimit
  {
    var r := if raw > ZoomLimit then ZoomLimit else raw;
    if r < -ZoomLimit then -ZoomLimit else r
  }

  /** The wheel step `event->delta() / 2`, with C++ truncating division. */
  function WheelStep(wheelDelta: int): int
  {
    CDiv(wheelDelta, 2)
  }

  /** The diagonal of the cube of edge `maxCube`, `maxCube * sqrt(3)`, on
      which the camera distance and the frustum are based. */
  function Diagonal(maxCube: real): real
  {
    maxCube * Sqrt3Float
  }

  /** Arguments of `glFrustum`. */
  datatype Frustum = Frustum(left: real, right: real, bottom: real, top: real, near: real, far: real)

  /** `resizeGL`: the aspect ratio `w / h` (a height of 0 counts as 1), then
      half-extents `(a/2) * aspect * zoom` and `(a/2) * zoom`, near plane at
      `3a` and far plane at `6a`. */
  function ResizeFrustum(maxCube: real, w: int, h: int, zoom: real): Frustum
  {
    var aspect := w as real / (if h != 0 then h else 1) as real;
    var a := Diagonal(maxCube);
    Frustum(-(a / 2.0) * aspect * zoom, (a / 2.0) * aspect * zoom,
            -(a / 2.0) * zoom, (a / 2.0) * zoom, 3.0 * a, 6.0 * a)
  }

  /** `paintGL` moves the scene `4a` away from the camera. */
  function CameraDistance(maxCube: real): real
  {
    4.0 * Diagonal(maxCube)
  }

  /** The frustum is symmetric about the view axis, its planes sit at 3a
      and 6a, and for a grid of positive extent the grid centre, 4a away,
      lies strictly between the near and the far plane. */
  lemma FrustumEnclosesGridCentre(maxCube: real, w: int, h: int, zoom: real)
    ensures var f := ResizeFrustum(maxCube, w, h, zoom);
      f.left == -f.right && f.bottom == -f.top
      && f.near == 3.0 * Diagonal(maxCube) && f.far == 6.0 * Diagonal(maxCube)
    ensures maxCube > 0.0 ==>
      var f := ResizeFrustum(maxCube, w, h, zoom);
      0.0 < f.near < CameraDistance(maxCube) < f.far
  {
  }

  /** The frustum's height is proportional to the zoom factor, and at the
      full zoom-in, raw value 100, it has no width or height at all: the
      source does not guard this degenerate projection. */
  lemma FrustumDegenerateAtFullZoom(maxCube: real, w: int, h: int)
    ensures var f := ResizeFrustum(maxCube, w, h, ZoomFactor(ZoomLimit));
      f.left == f.right == 0.0 && f.bottom == f.top == 0.0
  {
  }

  /** An extent of zero (a single Points cell) also collapses the frustum:
      all six planes are 0. */
  lemma FrustumDegenerateAtZeroExtent(w: int, h: int, zoom: real)
    ensures ResizeFrustum(0.0, w, h, zoom) == Frustum(0.0, 0.0, 0.0, 0.0, 0.0, 0.0)
  {
  }
}
