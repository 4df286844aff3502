/**
 * The geometry the editor applies when the classifier reports a transition
 * shape: nearest-point selection (strict `<`, so the first minimum wins),
 * furthest-point selection (strict `>` from a zero seed, so the first
 * maximum wins) and the fixed arrow polyline drawn between the two.
 */
module ArrowFit {
  import opened Wrappers
  import opened Geometry

  /**
   * The left fold `d(current) < acc.1 ? current : acc` seeded with
   * "no element yet" (the editor seeds it with an infinite distance).
   */
  function FirstNearest<T>(xs: seq<T>, dist: T -> real): Option<T>
    decreases |xs|
  {
    if xs == [] then None
    else
      var acc := FirstNearest(xs[..|xs| - 1], dist);
      var current := xs[|xs| - 1];
      if acc.None? || dist(current) < dist(acc.value) then Some(current) else acc
  }

  /** The fold yields nothing only on an empty list, and otherwise the first element of least distance. */
  lemma {:induction false} FirstNearestIsFirstMinimum<T>(xs: seq<T>, dist: T -> real) returns (k: nat)
    ensures FirstNearest(xs, dist).None? <==> xs == []
    ensures xs != [] ==> k < |xs| && FirstNearest(xs, dist) == Some(xs[k])
    ensures xs != [] ==> forall j :: 0 <= j < |xs| ==> dist(xs[k]) <= dist(xs[j])
    ensures xs != [] ==> forall j :: 0 <= j < k ==> dist(xs[k]) < dist(xs[j])
    decreases |xs|
  {
    k := 0;
    if xs != [] {
      var init := xs[..|xs| - 1];
      var last := |xs| - 1;
      if init != [] {
        var i := FirstNearestIsFirstMinimum(init, dist);
        assert init[i] == xs[i];
        assert forall j :: 0 <= j < |init| ==> init[j] == xs[j];
        if dist(xs[last]) < dist(xs[i]) {
          k := last;
        } else {
          k := i;
        }
      }
    }
  }

  /** The control point of `pts` nearest to `p`, or `CGPoint.zero` when `pts` is empty. */
  function ClosestPoint(p: Point, pts: seq<Point>): Point {
    match FirstNearest(pts, q => SqDist(p, q))
    case Some(q) => q
    case None => Origin
  }

  lemma ClosestPointIsFirstNearest(p: Point, pts: seq<Point>) returns (k: nat)
    ensures pts == [] ==> ClosestPoint(p, pts) == Origin
    ensures pts != [] ==> k < |pts| && ClosestPoint(p, pts) == pts[k]
    ensures pts != [] ==> forall j :: 0 <= j < |pts| ==> SqDist(p, pts[k]) <= SqDist(p, pts[j])
    ensures pts != [] ==> forall j :: 0 <= j < k ==> SqDist(p, pts[k]) < SqDist(p, pts[j])
  {
    var dist := q => SqDist(p, q);
    k := FirstNearestIsFirstMinimum(pts, dist);
    if pts != [] {
      forall j | 0 <= j < |pts| ensures dist(pts[j]) == SqDist(p, pts[j]) { }
    }
  }

  /**
   * The left fold `d(current) > acc.1 ? (current, d(current)) : acc`
   * seeded with `(CGPoint.zero, 0)`, `d` measured from `start`.
   */
  function FurthestSoFar(start: Point, pts: seq<Point>): (Point, real)
    decreases |pts|
  {
    if pts == [] then (Origin, 0.0)
    else
      var acc := FurthestSoFar(start, pts[..|pts| - 1]);
      var current := pts[|pts| - 1];
      var d := SqDist(start, current);
      if d > acc.1 then (current, d) else acc
  }

  lemma {:induction false} FurthestSoFarIsFirstMaximum(start: Point, pts: seq<Point>) returns (k: nat)
    ensures FurthestSoFar(start, pts).1 >= 0.0
    ensures forall j :: 0 <= j < |pts| ==> SqDist(start, pts[j]) <= FurthestSoFar(start, pts).1
    ensures FurthestSoFar(start, pts).1 == 0.0 ==> FurthestSoFar(start, pts).0 == Origin
    ensures FurthestSoFar(start, pts).1 > 0.0 ==>
      k < |pts| && FurthestSoFar(start, pts) == (pts[k], SqDist(start, pts[k])) &&
      forall j :: 0 <= j < k ==> SqDist(start, pts[j]) < SqDist(start, pts[k])
    decreases |pts|
  {
    k := 0;
    if pts != [] {
      var init := pts[..|pts| - 1];
      var last := |pts| - 1;
      var i := FurthestSoFarIsFirstMaximum(start, init);
      assert forall j :: 0 <= j < |init| ==> init[j] == pts[j];
      if SqDist(start, pts[last]) > FurthestSoFar(start, init).1 {
        k := last;
      } else {
        k := i;
      }
    }
  }

  /** The arrow tip: the control point furthest from `start`. */
  function TipPoint(start: Point, pts: seq<Point>): Point {
    FurthestSoFar(start, pts).0
  }

  /**
   * When every control point is at distance zero from `start` the tip is
   * `CGPoint.zero`; otherwise it is the first control point of greatest
   * distance from `start`.
   */
  lemma TipIsFirstFurthest(start: Point, pts: seq<Point>) returns (k: nat)
    ensures (forall j :: 0 <= j < |pts| ==> SqDist(start, pts[j]) == 0.0) ==> TipPoint(start, pts) == Origin
    ensures (exists j :: 0 <= j < |pts| && SqDist(start, pts[j]) != 0.0) ==>
      k < |pts| && TipPoint(start, pts) == pts[k] &&
      (forall j :: 0 <= j < |pts| ==> SqDist(start, pts[j]) <= SqDist(start, pts[k])) &&
      (forall j :: 0 <= j < k ==> SqDist(start, pts[j]) < SqDist(start, pts[k]))
  {
    k := FurthestSoFarIsFirstMaximum(start, pts);
    if exists j :: 0 <= j < |pts| && SqDist(start, pts[j]) != 0.0 {
      var j :| 0 <= j < |pts| && SqDist(start, pts[j]) != 0.0;
      SqDistNonNegative(start, pts[j]);
    } else if pts != [] {
      assert SqDist(start, pts[|pts| - 1]) == 0.0;
      assert FurthestSoFar(start, pts).1 == FurthestSoFar(start, pts[..|pts| - 1]).1;
      var _ := FurthestSoFarIsFirstMaximum(start, pts[..|pts| - 1]);
    }
  }

  /** How far above the middle of the arrow its label sits (y grows downwards). */
  const LabelLift: real := 50.0

  /** The label position of a transition: the midpoint of the arrow, lifted by `LabelLift`. */
  function LabelPosition(startPoint: Point, tipPoint: Point): (r: Point)
    ensures r.x - startPoint.x == tipPoint.x - r.x
    ensures (r.y + LabelLift) - startPoint.y == tipPoint.y - (r.y + LabelLift)
  {
    Point((startPoint.x + tipPoint.x) / 2.0, (startPoint.y + tipPoint.y) / 2.0 - LabelLift)
  }

  /**
   * `Array.arrow`: the shaft from `startPoint` to `tipPoint`, then two
   * barbs drawn from the tip towards the lower left and the upper left.
   */
  function Arrow(startPoint: Point, tipPoint: Point): (r: seq<Point>)
    ensures |r| == 11
    ensures r[0] == startPoint && r[1] == tipPoint && r[6] == tipPoint
    ensures forall i :: 1 <= i < 11 ==> r[i].x <= tipPoint.x
    ensures forall i :: 2 <= i <= 5 ==> r[i].x == r[i + 5].x && r[i].y - tipPoint.y == tipPoint.y - r[i + 5].y
    ensures forall i :: 2 <= i <= 5 ==> r[i].y > tipPoint.y
  {
    var t := tipPoint;
    [
      startPoint,
      t,
      Point(t.x - 0.1, t.y + 0.1),
      Point(t.x - 1.0, t.y + 1.0),
      Point(t.x - 20.0, t.y + 30.0),
      Point(t.x - 20.0, t.y + 30.0),
      t,
      Point(t.x - 0.1, t.y - 0.1),
      Point(t.x - 1.0, t.y - 1.0),
      Point(t.x - 20.0, t.y - 30.0),
      Point(t.x - 20.0, t.y - 30.0)
    ]
  }
}
