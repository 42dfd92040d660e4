/** Plane points in pixel space and the numeric helpers the analyzers use.
    The trigonometry of the geometry utility (arc-cosine, arc-tangent) and the
    Euclidean norm are not modelled: an `Oracle` supplies them as total functions. */
module Geometry {

  datatype Point = Point(x: real, y: real)

  /** Component-wise difference, numpy's `a - b` on two rows. */
  function Sub(a: Point, b: Point): Point {
    Point(a.x - b.x, a.y - b.y)
  }

  /** numpy's `(a + b) / 2.0`: the point equidistant from both joints on each axis. */
  function Mid(a: Point, b: Point): (m: Point)
    ensures m.x - a.x == b.x - m.x && m.y - a.y == b.y - m.y
    ensures Min(a.x, b.x) <= m.x <= Max(a.x, b.x)
    ensures Min(a.y, b.y) <= m.y <= Max(a.y, b.y)
  {
    Point((a.x + b.x) / 2.0, (a.y + b.y) / 2.0)
  }

  /** A non-negative length in pixels. */
  type Distance = r: real | 0.0 <= r

  function Abs(r: real): Distance {
    if r < 0.0 then -r else r
  }

  function Min(a: real, b: real): real {
    if a <= b then a else b
  }

  function Max(a: real, b: real): real {
    if a >= b then a else b
  }

  /** For a positive divisor, `x / d < k` exactly when `x < k * d`. */
  lemma QuotientBelow(x: real, d: real, k: real)
    requires d > 0.0
    ensures x / d < k <==> x < k * d
  {
    var q := x / d;
    assert q * d == x;
    if q < k {
      assert (k - q) * d > 0.0;
    } else {
      assert (q - k) * d >= 0.0;
    }
  }

  /** The `1e-6` guard added to denominators and lengths. */
  const Epsilon: real := 0.000001

  /** Reference directions in image coordinates (y grows downwards). */
  const Horizontal: Point := Point(1.0, 0.0)
  const VerticalUp: Point := Point(0.0, -1.0)
  const VerticalDown: Point := Point(0.0, 1.0)

  /** The geometry utility as seen by the analyzers:
      `angleAt(a, b, c)` is the angle ABC in degrees, `angleBetween(u, v)` the
      angle between two vectors in degrees, `norm(v)` the Euclidean length. */
  datatype Oracle = Oracle(
    angleAt: (Point, Point, Point) -> real,
    angleBetween: (Point, Point) -> real,
    norm: Point -> real)
}
