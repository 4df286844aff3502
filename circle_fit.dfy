/**
 * The circle fit the editor applies when the classifier reports a state
 * shape: the centre is the arithmetic mean of the control points and the
 * radius is the mean L1 distance (|dx| + |dy|) from that centre.
 *
 * Both quantities are written as the left folds the editor uses, one
 * accumulator per axis.
 */
module CircleFit {
  import opened Geometry

  datatype Axis = X | Y

  function Coord(p: Point, axis: Axis): real {
    match axis
    case X => p.x
    case Y => p.y
  }

  /** The running sum `acc + current.x` (or `.y`) over the control points. */
  function Sum(pts: seq<Point>, axis: Axis): real
    decreases |pts|
  {
    if pts == [] then 0.0 else Sum(pts[..|pts| - 1], axis) + Coord(pts[|pts| - 1], axis)
  }

  /** The centre of a classified circle: the mean of its control points. */
  function Center(pts: seq<Point>): Point
    requires pts != []
  {
    var count := |pts| as real;
    Point(Sum(pts, X) / count, Sum(pts, Y) / count)
  }

  /** The running sum `acc + abs(c.x - current.x) + abs(c.y - current.y)`. */
  function SumL1(pts: seq<Point>, c: Point): (s: real)
    ensures s >= 0.0
    decreases |pts|
  {
    if pts == [] then 0.0
    else
      var last := pts[|pts| - 1];
      SumL1(pts[..|pts| - 1], c) + Abs(c.x - last.x) + Abs(c.y - last.y)
  }

  /** The radius of a classified circle: the mean L1 distance from its centre. */
  function Radius(pts: seq<Point>): (r: real)
    requires pts != []
    ensures r >= 0.0
  {
    SumL1(pts, Center(pts)) / |pts| as real
  }

  /** The total signed offset of the control points from `q` along `axis`. */
  function Deviation(pts: seq<Point>, q: Point, axis: Axis): real
    decreases |pts|
  {
    if pts == [] then 0.0
    else Deviation(pts[..|pts| - 1], q, axis) + (Coord(pts[|pts| - 1], axis) - Coord(q, axis))
  }

  lemma {:induction false} DeviationIsSumMinusCount(pts: seq<Point>, q: Point, axis: Axis)
    ensures Deviation(pts, q, axis) == Sum(pts, axis) - |pts| as real * Coord(q, axis)
    decreases |pts|
  {
    if pts != [] {
      var n := |pts| as real;
      DeviationIsSumMinusCount(pts[..|pts| - 1], q, axis);
      assert (n - 1.0) * Coord(q, axis) + Coord(q, axis) == n * Coord(q, axis);
    }
  }

  lemma BalanceAt(s: real, n: real, q: real)
    requires n > 0.0
    ensures s - n * q == 0.0 <==> q == s / n
  {
  }

  lemma BalanceOnAxis(pts: seq<Point>, q: Point, axis: Axis)
    requires pts != []
    ensures Deviation(pts, q, axis) == 0.0 <==> Coord(q, axis) == Coord(Center(pts), axis)
  {
    var n, s := |pts| as real, Sum(pts, axis);
    DeviationIsSumMinusCount(pts, q, axis);
    assert Coord(Center(pts), axis) == s / n;
    BalanceAt(s, n, Coord(q, axis));
  }

  /**
   * The centre is the balance point of the control points: the signed
   * offsets from a point cancel out on both axes exactly when that point
   * is the centre.
   */
  lemma CenterIsBalancePoint(pts: seq<Point>, q: Point)
    requires pts != []
    ensures (Deviation(pts, q, X) == 0.0 && Deviation(pts, q, Y) == 0.0) <==> q == Center(pts)
  {
    var c := Center(pts);
    BalanceOnAxis(pts, q, X);
    BalanceOnAxis(pts, q, Y);
    assert q == c <==> q.x == c.x && q.y == c.y;
  }

  lemma {:induction false} DeviationPositive(pts: seq<Point>, q: Point, axis: Axis)
    requires pts != []
    requires forall i :: 0 <= i < |pts| ==> Coord(pts[i], axis) > Coord(q, axis)
    ensures Deviation(pts, q, axis) > 0.0
    decreases |pts|
  {
    if |pts| > 1 {
      DeviationPositive(pts[..|pts| - 1], q, axis);
    }
  }

  lemma {:induction false} DeviationNegative(pts: seq<Point>, q: Point, axis: Axis)
    requires pts != []
    requires forall i :: 0 <= i < |pts| ==> Coord(pts[i], axis) < Coord(q, axis)
    ensures Deviation(pts, q, axis) < 0.0
    decreases |pts|
  {
    if |pts| > 1 {
      DeviationNegative(pts[..|pts| - 1], q, axis);
    }
  }

  /** On each axis the centre lies between the smallest and the largest control point. */
  lemma CenterWithinSpread(pts: seq<Point>, axis: Axis)
    requires pts != []
    ensures exists i :: 0 <= i < |pts| && Coord(pts[i], axis) <= Coord(Center(pts), axis)
    ensures exists j :: 0 <= j < |pts| && Coord(Center(pts), axis) <= Coord(pts[j], axis)
  {
    var c := Center(pts);
    CenterIsBalancePoint(pts, c);
    assert Deviation(pts, c, axis) == 0.0;
    if forall i :: 0 <= i < |pts| ==> Coord(pts[i], axis) > Coord(c, axis) {
      DeviationPositive(pts, c, axis);
    }
    if forall j :: 0 <= j < |pts| ==> Coord(pts[j], axis) < Coord(c, axis) {
      DeviationNegative(pts, c, axis);
    }
  }

  lemma {:induction false} SumL1ZeroIff(pts: seq<Point>, c: Point)
    ensures SumL1(pts, c) == 0.0 <==> forall i :: 0 <= i < |pts| ==> pts[i] == c
    decreases |pts|
  {
    if pts != [] {
      var init, last := pts[..|pts| - 1], pts[|pts| - 1];
      SumL1ZeroIff(init, c);
      if SumL1(pts, c) == 0.0 {
        assert last == Point(c.x, c.y);
        forall i | 0 <= i < |pts| ensures pts[i] == c {
          if i < |pts| - 1 { assert pts[i] == init[i]; }
        }
      }
      if forall i :: 0 <= i < |pts| ==> pts[i] == c {
        forall i | 0 <= i < |init| ensures init[i] == c {
          assert init[i] == pts[i];
        }
      }
    }
  }

  lemma DivZero(s: real, n: real)
    requires n > 0.0
    ensures s / n == 0.0 <==> s == 0.0
  {
  }

  /** The radius vanishes exactly when every control point sits on the centre. */
  lemma RadiusZeroIff(pts: seq<Point>)
    requires pts != []
    ensures Radius(pts) == 0.0 <==> forall i :: 0 <= i < |pts| ==> pts[i] == Center(pts)
  {
    SumL1ZeroIff(pts, Center(pts));
    DivZero(SumL1(pts, Center(pts)), |pts| as real);
  }

  lemma {:induction false} SumOfShift(pts: seq<Point>, v: Point, axis: Axis)
    ensures Sum(Shift(pts, v), axis) == Sum(pts, axis) + |pts| as real * Coord(v, axis)
    decreases |pts|
  {
    if pts != [] {
      var n := |pts| as real;
      assert Shift(pts, v)[..|pts| - 1] == Shift(pts[..|pts| - 1], v);
      SumOfShift(pts[..|pts| - 1], v, axis);
      assert (n - 1.0) * Coord(v, axis) + Coord(v, axis) == n * Coord(v, axis);
    }
  }

  lemma {:induction false} SumL1OfShift(pts: seq<Point>, c: Point, v: Point)
    ensures SumL1(Shift(pts, v), Add(c, v)) == SumL1(pts, c)
    decreases |pts|
  {
    if pts != [] {
      assert Shift(pts, v)[..|pts| - 1] == Shift(pts[..|pts| - 1], v);
      SumL1OfShift(pts[..|pts| - 1], c, v);
    }
  }

  lemma ShiftDiv(s: real, n: real, c: real)
    requires n > 0.0
    ensures (s + n * c) / n == s / n + c
  {
  }

  /**
   * Moving every control point by `v` moves the centre by `v` and leaves the
   * radius unchanged.
   */
  lemma ShiftMovesCenter(pts: seq<Point>, v: Point)
    requires pts != []
    ensures Center(Shift(pts, v)) == Add(Center(pts), v)
    ensures Radius(Shift(pts, v)) == Radius(pts)
  {
    var n := |pts| as real;
    SumOfShift(pts, v, X);
    SumOfShift(pts, v, Y);
    ShiftDiv(Sum(pts, X), n, v.x);
    ShiftDiv(Sum(pts, Y), n, v.y);
    assert Center(Shift(pts, v)) == Add(Center(pts), v);
    SumL1OfShift(pts, Center(pts), v);
  }
}
