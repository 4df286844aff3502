/**
 * Plane geometry shared by the editor: points with real coordinates
 * (CGFloat read as an exact real) and strokes as ordered control points.
 */
module Geometry {

  datatype Point = Point(x: real, y: real)

  /** `CGPoint.zero`. */
  const Origin: Point := Point(0.0, 0.0)

  /** A drawn or derived polyline. */
  datatype Stroke = Stroke(controlPoints: seq<Point>)

  function Abs(r: real): (a: real)
    ensures a >= 0.0 && (a == r || a == -r)
  {
    if r < 0.0 then -r else r
  }

  function Add(p: Point, v: Point): Point {
    Point(p.x + v.x, p.y + v.y)
  }

  /** Squared Euclidean distance, `pow(a.x - b.x, 2) + pow(a.y - b.y, 2)`. */
  function SqDist(a: Point, b: Point): real {
    (a.x - b.x) * (a.x - b.x) + (a.y - b.y) * (a.y - b.y)
  }

  lemma SqDistNonNegative(a: Point, b: Point)
    ensures SqDist(a, b) >= 0.0
  {
  }

  /** The points of `pts`, each moved by `v`. */
  function Shift(pts: seq<Point>, v: Point): (r: seq<Point>)
    ensures |r| == |pts|
    ensures forall i :: 0 <= i < |pts| ==> r[i] == Add(pts[i], v)
  {
    seq(|pts|, i requires 0 <= i < |pts| => Add(pts[i], v))
  }
}
