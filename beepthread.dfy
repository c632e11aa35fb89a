// Model of beepthread.cpp: the piecewise-linear curve `PiecewiseLinearFunction`
// (sorted control points, linear interpolation, flat extrapolation), the two
// 20-entry lookup tables the `BeepThread` constructor builds with it, and the
// per-iteration choice of `BeepThread::run` between a climb beep, the sink
// tone and silence.

module Beep {
  import opened Utils

  /** A control point (QPointF). */
  datatype Point = Point(x: real, y: real)

  /** Points sorted by non-decreasing x. */
  predicate Sorted(pts: seq<Point>)
  {
    forall i, j :: 0 <= i < j < |pts| ==> pts[i].x <= pts[j].x
  }

  /** Points sorted by strictly increasing x. */
  predicate StrictlySorted(pts: seq<Point>)
  {
    forall i, j :: 0 <= i < j < |pts| ==> pts[i].x < pts[j].x
  }

  /** The y values rise (`up`) or fall (`!up`) along the list. */
  predicate YOrdered(pts: seq<Point>, up: bool)
  {
    forall i, j :: 0 <= i < j < |pts| ==> Ordered(pts[i].y, pts[j].y, up)
  }

  predicate Ordered(a: real, b: real, up: bool)
  {
    if up then a <= b else a >= b
  }

  // ---------------------------------------------------------------------
  // addNewPoint

  /** Index of the first stored point whose x is strictly greater than `x`,
      or |pts| when there is none. */
  function FirstGreater(pts: seq<Point>, x: real): (k: nat)
    ensures k <= |pts|
    ensures k < |pts| ==> pts[k].x > x
    ensures forall j :: 0 <= j < k ==> pts[j].x <= x
    decreases |pts|
  {
    if |pts| == 0 || pts[0].x > x then 0 else 1 + FirstGreater(pts[1..], x)
  }

  /** The list `addNewPoint(p)` leaves behind: a point with a zero coordinate
      is ignored; the first point and one beyond the last x are appended;
      any other point goes before the first stored point with a greater x,
      and is dropped when there is none (its x equals the last x). */
  function Inserted(pts: seq<Point>, p: Point): seq<Point>
  {
    if p.x == 0.0 || p.y == 0.0 then pts
    else if |pts| == 0 || p.x > pts[|pts| - 1].x then pts + [p]
    else
      var k := FirstGreater(pts, p.x);
      if k < |pts| then pts[..k] + [p] + pts[k..] else pts
  }

  /** Insertion never removes or reorders a stored point: the list either
      stays as it was or gains `p` at one position. */
  lemma InsertedShape(pts: seq<Point>, p: Point)
    ensures var r := Inserted(pts, p);
      r == pts || exists k :: 0 <= k <= |pts| && r == pts[..k] + [p] + pts[k..]
    ensures |pts| <= |Inserted(pts, p)| <= |pts| + 1
    ensures p.x == 0.0 || p.y == 0.0 ==> Inserted(pts, p) == pts
  {
    var r := Inserted(pts, p);
    if !(p.x == 0.0 || p.y == 0.0) && (|pts| == 0 || p.x > pts[|pts| - 1].x) {
      assert r == pts[..|pts|] + [p] + pts[|pts|..];
    }
  }

  /** A non-zero point beyond the last x is appended. */
  lemma InsertedAppends(pts: seq<Point>, p: Point)
    requires p.x != 0.0 && p.y != 0.0 && (|pts| == 0 || p.x > pts[|pts| - 1].x)
    ensures Inserted(pts, p) == pts + [p]
  {
  }

  /** On a sorted list a point is stored exactly when both coordinates are
      non-zero and its x differs from the last stored x. */
  lemma InsertedStores(pts: seq<Point>, p: Point)
    requires Sorted(pts)
    ensures p in Inserted(pts, p) <==>
      p in pts || (p.x != 0.0 && p.y != 0.0 && (|pts| == 0 || p.x != pts[|pts| - 1].x))
  {
    if p.x != 0.0 && p.y != 0.0 && |pts| > 0 && p.x <= pts[|pts| - 1].x {
      var k := FirstGreater(pts, p.x);
      if p.x == pts[|pts| - 1].x {
        assert k == |pts|;
      } else {
        assert k < |pts|;
        assert (pts[..k] + [p] + pts[k..])[k] == p;
      }
    }
  }

  /** Insertion keeps the list sorted by x. */
  lemma InsertedSorted(pts: seq<Point>, p: Point)
    requires Sorted(pts)
    ensures Sorted(Inserted(pts, p))
  {
    var r := Inserted(pts, p);
    if p.x == 0.0 || p.y == 0.0 {
    } else if |pts| == 0 || p.x > pts[|pts| - 1].x {
      forall i, j | 0 <= i < j < |r| ensures r[i].x <= r[j].x {
        if j == |pts| && i < |pts| { assert pts[i].x <= pts[|pts| - 1].x; }
      }
    } else {
      var k := FirstGreater(pts, p.x);
      if k < |pts| {
        forall i, j | 0 <= i < j < |r| ensures r[i].x <= r[j].x {
          if i < k && j == k {
          } else if i == k && j > k {
            assert r[j] == pts[j - 1];
            assert pts[k].x <= pts[j - 1].x;
          } else if i < k && j > k {
            assert r[j] == pts[j - 1];
          } else if i > k {
            assert r[i] == pts[i - 1] && r[j] == pts[j - 1];
          }
        }
      }
    }
  }

  /** Placing a point between the stored points left of it and those right
      of it keeps a strictly sorted list strictly sorted. */
  lemma StrictSplice(pts: seq<Point>, p: Point, k: nat)
    requires StrictlySorted(pts) && k <= |pts|
    requires forall j :: 0 <= j < k ==> pts[j].x < p.x
    requires forall j :: k <= j < |pts| ==> p.x < pts[j].x
    ensures StrictlySorted(pts[..k] + [p] + pts[k..])
  {
    var r := pts[..k] + [p] + pts[k..];
    forall i, j | 0 <= i < j < |r| ensures r[i].x < r[j].x {
      if j < k {
        assert r[i] == pts[i] && r[j] == pts[j];
      } else if j == k {
        assert r[i] == pts[i];
      } else if i == k {
        assert r[j] == pts[j - 1];
      } else if i < k {
        assert r[i] == pts[i] && r[j] == pts[j - 1];
      } else {
        assert r[i] == pts[i - 1] && r[j] == pts[j - 1];
      }
    }
  }

  /** Inserting a non-zero point at an x not yet stored keeps a strictly
      sorted list strictly sorted, and `getValue` at that x then returns the
      new point's y. */
  lemma InsertedStrictlySorted(pts: seq<Point>, p: Point)
    requires StrictlySorted(pts) && p.x != 0.0 && p.y != 0.0
    requires forall i :: 0 <= i < |pts| ==> pts[i].x != p.x
    ensures StrictlySorted(Inserted(pts, p))
    ensures ValueAt(Inserted(pts, p), p.x) == p.y
  {
    var k: nat;
    if |pts| == 0 || p.x > pts[|pts| - 1].x {
      k := |pts|;
      forall j | 0 <= j < k ensures pts[j].x < p.x {
        if j < |pts| - 1 { assert pts[j].x < pts[|pts| - 1].x; }
      }
      assert Inserted(pts, p) == pts[..k] + [p] + pts[k..];
    } else {
      k := FirstGreater(pts, p.x);
      assert pts[|pts| - 1].x != p.x && p.x <= pts[|pts| - 1].x;
      assert k < |pts|;
      forall j | k <= j < |pts| ensures p.x < pts[j].x {
        if j > k { assert pts[k].x < pts[j].x; }
      }
    }
    StrictSplice(pts, p, k);
    var r := pts[..k] + [p] + pts[k..];
    assert r[k] == p;
    ValueAtKnot(r, k);
  }

  // ---------------------------------------------------------------------
  // getValue

  /** Linear interpolation on the segment from `a` to `b`; `a.x < x` keeps
      the divisor positive. */
  function Lerp(a: Point, b: Point, x: real): real
    requires a.x < x <= b.x
  {
    a.y + (x - a.x) / (b.x - a.x) * (b.y - a.y)
  }

  /** The loop of `getValue` from index `i`, with `pts[i - 1]` as the last
      point passed; it is only reached when `x` lies beyond that point. */
  function ScanFrom(pts: seq<Point>, i: nat, x: real): real
    requires 1 <= i <= |pts| && pts[i - 1].x < x
    decreases |pts| - i
  {
    if i == |pts| then pts[i - 1].y
    else if x <= pts[i].x then Lerp(pts[i - 1], pts[i], x)
    else ScanFrom(pts, i + 1, x)
  }

  /** `getValue(x)`: defined for every non-empty list (sorted or not); the
      interpolation divides only by a positive width. */
  function ValueAt(pts: seq<Point>, x: real): real
    requires |pts| > 0
  {
    if x <= pts[0].x then pts[0].y else ScanFrom(pts, 1, x)
  }

  /** First index `k >= i` whose x is at least `x`. */
  function SegmentFrom(pts: seq<Point>, i: nat, x: real): (k: nat)
    requires 1 <= i < |pts| && x <= pts[|pts| - 1].x
    ensures i <= k < |pts| && x <= pts[k].x
    ensures forall j :: i <= j < k ==> pts[j].x < x
    decreases |pts| - i
  {
    if x <= pts[i].x then i else SegmentFrom(pts, i + 1, x)
  }

  lemma {:induction false} ScanFromSegment(pts: seq<Point>, i: nat, x: real)
    requires 1 <= i < |pts| && pts[i - 1].x < x <= pts[|pts| - 1].x
    ensures var k := SegmentFrom(pts, i, x);
      pts[k - 1].x < x && ScanFrom(pts, i, x) == Lerp(pts[k - 1], pts[k], x)
    decreases |pts| - i
  {
    if x > pts[i].x {
      ScanFromSegment(pts, i + 1, x);
    }
  }

  /** Inside the range of the list, `getValue` interpolates on the first
      segment whose right end is not left of `x`. */
  lemma ValueAtSegment(pts: seq<Point>, x: real)
    requires |pts| > 1 && pts[0].x < x <= pts[|pts| - 1].x
    ensures var k := SegmentFrom(pts, 1, x);
      pts[k - 1].x < x && ValueAt(pts, x) == Lerp(pts[k - 1], pts[k], x)
  {
    ScanFromSegment(pts, 1, x);
  }

  lemma {:induction false} ScanFromPastAll(pts: seq<Point>, i: nat, x: real)
    requires 1 <= i <= |pts| && pts[i - 1].x < x
    requires forall j :: i <= j < |pts| ==> pts[j].x < x
    ensures ScanFrom(pts, i, x) == pts[|pts| - 1].y
    decreases |pts| - i
  {
    if i < |pts| {
      ScanFromPastAll(pts, i + 1, x);
    }
  }

  /** Flat extrapolation: at or below the first x the first y, beyond the
      last x of a sorted list the last y. */
  lemma ValueAtEnds(pts: seq<Point>, x: real)
    requires |pts| > 0
    ensures x <= pts[0].x ==> ValueAt(pts, x) == pts[0].y
    ensures Sorted(pts) && x > pts[|pts| - 1].x ==> ValueAt(pts, x) == pts[|pts| - 1].y
  {
    if Sorted(pts) && x > pts[|pts| - 1].x && x > pts[0].x {
      forall j | 1 <= j < |pts| ensures pts[j].x < x {
        assert pts[j].x <= pts[|pts| - 1].x;
      }
      ScanFromPastAll(pts, 1, x);
    }
  }

  lemma LerpAtEnd(a: Point, b: Point)
    requires a.x < b.x
    ensures Lerp(a, b, b.x) == b.y
  {
    assert (b.x - a.x) / (b.x - a.x) == 1.0;
  }

  /** A product with a factor in [0, 1] lies between 0 and the other factor. */
  lemma ScaleBetween(t: real, d: real)
    requires 0.0 <= t <= 1.0
    ensures d >= 0.0 ==> 0.0 <= t * d <= d
    ensures d <= 0.0 ==> d <= t * d <= 0.0
  {
    if d >= 0.0 {
      assert d - t * d == (1.0 - t) * d;
    } else {
      assert t * d - d == (1.0 - t) * (-d);
    }
  }

  lemma LerpRatio(a: Point, b: Point, x: real)
    requires a.x < x <= b.x
    ensures 0.0 < (x - a.x) / (b.x - a.x) <= 1.0
  {
  }

  /** An interpolated value lies between the two end values. */
  lemma LerpBetween(a: Point, b: Point, x: real)
    requires a.x < x <= b.x
    ensures a.y <= b.y ==> a.y <= Lerp(a, b, x) <= b.y
    ensures a.y >= b.y ==> b.y <= Lerp(a, b, x) <= a.y
  {
    var t := (x - a.x) / (b.x - a.x);
    LerpRatio(a, b, x);
    ScaleBetween(t, b.y - a.y);
  }

  /** On one segment, interpolation follows the direction of the end values. */
  lemma LerpMonotone(a: Point, b: Point, x1: real, x2: real, up: bool)
    requires a.x < x1 <= x2 <= b.x && Ordered(a.y, b.y, up)
    ensures Ordered(Lerp(a, b, x1), Lerp(a, b, x2), up)
  {
    var w := b.x - a.x;
    var t1, t2 := (x1 - a.x) / w, (x2 - a.x) / w;
    assert t2 - t1 == (x2 - x1) / w;
    assert t2 - t1 >= 0.0;
    var d := b.y - a.y;
    assert t2 * d - t1 * d == (t2 - t1) * d;
    if up {
      assert (t2 - t1) * d >= 0.0;
    } else {
      assert (t2 - t1) * (-d) >= 0.0;
    }
  }

  /** At a stored knot of a strictly sorted list `getValue` returns that
      knot's y exactly. */
  lemma ValueAtKnot(pts: seq<Point>, k: nat)
    requires StrictlySorted(pts) && k < |pts|
    ensures ValueAt(pts, pts[k].x) == pts[k].y
  {
    var x := pts[k].x;
    if k > 0 {
      assert pts[0].x < x <= pts[|pts| - 1].x by {
        if k < |pts| - 1 { assert pts[k].x < pts[|pts| - 1].x; }
      }
      ValueAtSegment(pts, x);
      var s := SegmentFrom(pts, 1, x);
      assert s == k;
      LerpAtEnd(pts[k - 1], pts[k]);
    }
  }

  /** Strictly between two neighbouring knots of a sorted list the value
      lies between their y values. */
  lemma ValueBetweenKnots(pts: seq<Point>, k: nat, x: real)
    requires Sorted(pts) && 1 <= k < |pts| && pts[k - 1].x < x < pts[k].x
    ensures var lo, hi := pts[k - 1].y, pts[k].y;
      (lo <= hi ==> lo <= ValueAt(pts, x) <= hi) && (lo >= hi ==> hi <= ValueAt(pts, x) <= lo)
  {
    assert pts[0].x <= pts[k - 1].x;
    assert pts[k].x <= pts[|pts| - 1].x;
    ValueAtSegment(pts, x);
    var s := SegmentFrom(pts, 1, x);
    assert s == k;
    LerpBetween(pts[k - 1], pts[k], x);
  }

  /** With y values ordered along a sorted list, every value lies between
      the first and the last y. */
  lemma ValueAtRange(pts: seq<Point>, x: real, up: bool)
    requires |pts| > 0 && Sorted(pts) && YOrdered(pts, up)
    ensures Ordered(pts[0].y, ValueAt(pts, x), up)
    ensures Ordered(ValueAt(pts, x), pts[|pts| - 1].y, up)
  {
    var n := |pts|;
    ValueAtEnds(pts, x);
    if pts[0].x < x <= pts[n - 1].x {
      ValueAtSegment(pts, x);
      var k := SegmentFrom(pts, 1, x);
      LerpBetween(pts[k - 1], pts[k], x);
      assert Ordered(pts[0].y, pts[k - 1].y, up) by {
        if k - 1 > 0 { assert Ordered(pts[0].y, pts[k - 1].y, up); }
      }
      assert Ordered(pts[k].y, pts[n - 1].y, up) by {
        if k < n - 1 { assert Ordered(pts[k].y, pts[n - 1].y, up); }
      }
    } else if x > pts[n - 1].x && n > 1 {
      assert Ordered(pts[0].y, pts[n - 1].y, up);
    }
  }

  /** With y values ordered along a strictly sorted list, `getValue` is
      monotone in the same direction. */
  lemma ValueAtMonotone(pts: seq<Point>, x1: real, x2: real, up: bool)
    requires |pts| > 0 && StrictlySorted(pts) && YOrdered(pts, up) && x1 <= x2
    ensures Ordered(ValueAt(pts, x1), ValueAt(pts, x2), up)
  {
    var n := |pts|;
    ValueAtEnds(pts, x1);
    ValueAtEnds(pts, x2);
    ValueAtRange(pts, x1, up);
    ValueAtRange(pts, x2, up);
    if x1 <= pts[0].x || x2 > pts[n - 1].x {
    } else {
      ValueAtSegment(pts, x1);
      ValueAtSegment(pts, x2);
      var k1, k2 := SegmentFrom(pts, 1, x1), SegmentFrom(pts, 1, x2);
      if k1 == k2 {
        LerpMonotone(pts[k1 - 1], pts[k1], x1, x2, up);
      } else {
        assert k1 < k2;
        LerpBetween(pts[k1 - 1], pts[k1], x1);
        LerpBetween(pts[k2 - 1], pts[k2], x2);
        assert Ordered(pts[k1].y, pts[k2 - 1].y, up) by {
          if k1 < k2 - 1 { assert Ordered(pts[k1].y, pts[k2 - 1].y, up); }
        }
      }
    }
  }

  // ---------------------------------------------------------------------
  // PiecewiseLinearFunction

  class PiecewiseLinearFunction {
    var points: seq<Point>
    var posInfValue: real
    var negInfValue: real

    constructor ()
      ensures points == [] && posInfValue == 0.0 && negInfValue == 0.0
    {
      points := [];
      posInfValue := 0.0;
      negInfValue := 0.0;
    }

    /** `addNewPoint`. */
    method AddNewPoint(point: Point)
      modifies this`points
      ensures points == Inserted(old(points), point)
    {
      if point.x == 0.0 || point.y == 0.0 {
        return;
      } else if |points| == 0 {
        points := points + [point];
        return;
      } else if point.x > points[|points| - 1].x {
        points := points + [point];
        return;
      } else {
        var i := 0;
        while i < |points|
          invariant 0 <= i <= |points| && points == old(points)
          invariant forall j :: 0 <= j < i ==> points[j].x <= point.x
        {
          if points[i].x > point.x {
            points := points[..i] + [point] + points[i..];
            return;
          }
          i := i + 1;
        }
      }
    }

    /** `getSize`. */
    function GetSize(): (n: int)
      reads this
      ensures n == |points|
    {
      |points|
    }

    /** `getValue`: the source reads `points.at(0)`, so the list must not be
        empty. */
    method GetValue(x: real) returns (r: real)
      requires |points| > 0
      ensures r == ValueAt(points, x)
    {
      var lastPoint := points[0];
      if x <= lastPoint.x {
        return lastPoint.y;
      }
      var i := 1;
      while i < |points|
        invariant 1 <= i <= |points| && lastPoint == points[i - 1] && lastPoint.x < x
        invariant ValueAt(points, x) == ScanFrom(points, i, x)
      {
        var point := points[i];
        if x <= point.x {
          var ratio := (x - lastPoint.x) / (point.x - lastPoint.x);
          return lastPoint.y + ratio * (point.y - lastPoint.y);
        }
        lastPoint := point;
        i := i + 1;
      }
      return lastPoint.y;
    }
  }

  // ---------------------------------------------------------------------
  // BeepThread

  /** The 19 points the cycle-length curve (climb rate m/s -> beep length
      in s) stores: the constructor's 20 entries less the rejected (0, 0.200). */
  const VarioCurve: seq<Point> := [
    Point(0.20, 0.190), Point(0.40, 0.180), Point(0.60, 0.170),
    Point(0.80, 0.160), Point(1.00, 0.150), Point(1.25, 0.140), Point(1.50, 0.130),
    Point(1.75, 0.120), Point(2.00, 0.110), Point(2.25, 0.100), Point(2.50, 0.090),
    Point(3.50, 0.080), Point(4.24, 0.070), Point(5.00, 0.060), Point(6.00, 0.050),
    Point(7.00, 0.045), Point(8.00, 0.040), Point(9.00, 0.035), Point(10.00, 0.030)]

  /** The 19 points the tone curve (climb rate m/s -> tone Hz) stores: the
      constructor's 20 entries less the rejected (0, 300). */
  const ToneCurve: seq<Point> := [
    Point(0.20, 350.0), Point(0.40, 400.0), Point(0.60, 450.0),
    Point(0.80, 500.0), Point(1.00, 550.0), Point(1.25, 600.0), Point(1.50, 650.0),
    Point(1.75, 700.0), Point(2.00, 750.0), Point(2.25, 800.0), Point(2.50, 850.0),
    Point(3.50, 950.0), Point(4.24, 1050.0), Point(5.00, 1150.0), Point(6.00, 1300.0),
    Point(7.00, 1450.0), Point(8.00, 1600.0), Point(9.00, 1700.0), Point(10.00, 1800.0)]

  const DURATION_MS: real := 1000.0
  /** 0.2f and -2.0f: the thresholds are floats, so the climb threshold
      the double climb rate is compared against is 0.2f widened exactly. */
  const CLIMB_TONE_ON_THRESHOLD: real := 0.20000000298023223876953125
  const SINK_TONE_ON_THRESHOLD: real := -2.0
  const TONE_SAMPLE_RATE_HZ: real := 300.0
  /** Largest climb rate looked up in the tables. */
  const MAX_TABLE_VARIO: real := 10.0

  /** What one pass of the `run` loop does. */
  datatype BeepMode =
    | Climb(toneHz: int, beepMs: real, silenceMs: real)  // a generator at toneHz, sound then equal silence
    | Sink(toneHz: int, soundMs: int)                    // the fixed low sink tone
    | Silent(waitMs: int)                                // output stopped for a short wait

  /** The choice made by one iteration of `run` for climb rate `vario`,
      given the stored tone and cycle-length curves. */
  function Decide(vario: real, tone: seq<Point>, cycle: seq<Point>): BeepMode
    requires |tone| > 0 && |cycle| > 0
  {
    if vario >= CLIMB_TONE_ON_THRESHOLD then
      var v := if vario < MAX_TABLE_VARIO then vario else MAX_TABLE_VARIO;
      var beep := ValueAt(cycle, v) * 1000.0;
      Climb(Trunc(ValueAt(tone, v)), beep, beep)
    else if vario <= SINK_TONE_ON_THRESHOLD then
      Sink(Trunc(TONE_SAMPLE_RATE_HZ * 0.5), 500)
    else
      Silent(100)
  }

  /** The stored cycle-length curve: 19 points from x = 0.20, strictly
      sorted, lengths falling from 0.190 to 0.030 s. */
  lemma VarioCurveShape()
    ensures |VarioCurve| == 19 && VarioCurve[0] == Point(0.20, 0.190)
    ensures VarioCurve[18] == Point(10.00, 0.030)
    ensures StrictlySorted(VarioCurve) && YOrdered(VarioCurve, false) && NonZero(VarioCurve)
  {
    var v := VarioCurve;
    assert forall i :: 0 <= i < |v| - 1 ==> v[i].x < v[i + 1].x && v[i].y >= v[i + 1].y;
    StepsToPairs(v, false);
  }

  /** The stored tone curve: 19 points from x = 0.20, strictly sorted, tones
      rising from 350 to 1800 Hz. */
  lemma ToneCurveShape()
    ensures |ToneCurve| == 19 && ToneCurve[0] == Point(0.20, 350.0)
    ensures ToneCurve[18] == Point(10.00, 1800.0)
    ensures StrictlySorted(ToneCurve) && YOrdered(ToneCurve, true) && NonZero(ToneCurve)
  {
    var t := ToneCurve;
    assert forall i :: 0 <= i < |t| - 1 ==> t[i].x < t[i + 1].x && t[i].y <= t[i + 1].y;
    StepsToPairs(t, true);
  }

  /** Neighbour-wise order gives pair-wise order. */
  lemma StepsToPairs(pts: seq<Point>, up: bool)
    requires forall i :: 0 <= i < |pts| - 1 ==> pts[i].x < pts[i + 1].x && Ordered(pts[i].y, pts[i + 1].y, up)
    ensures StrictlySorted(pts) && YOrdered(pts, up)
  {
    forall i, j | 0 <= i < j < |pts| ensures pts[i].x < pts[j].x && Ordered(pts[i].y, pts[j].y, up) {
      StepsBetween(pts, i, j, up);
    }
  }

  lemma {:induction false} StepsBetween(pts: seq<Point>, i: nat, j: nat, up: bool)
    requires forall k :: 0 <= k < |pts| - 1 ==> pts[k].x < pts[k + 1].x && Ordered(pts[k].y, pts[k + 1].y, up)
    requires i < j < |pts|
    ensures pts[i].x < pts[j].x && Ordered(pts[i].y, pts[j].y, up)
    decreases j - i
  {
    if i + 1 < j {
      StepsBetween(pts, i + 1, j, up);
    }
  }

  lemma TruncMonotone(a: real, b: real)
    requires 0.0 <= a <= b
    ensures Trunc(a) <= Trunc(b)
  {
  }

  /** A climb (vario >= 0.2f) looks up the clamped rate: 350..1800 Hz, a beep
      of 30..190 ms and an equal silence; stronger lift never lowers the tone
      nor lengthens the beep. */
  lemma ClimbMode(vario: real, vario2: real)
    requires vario >= CLIMB_TONE_ON_THRESHOLD
    ensures var m := Decide(vario, ToneCurve, VarioCurve);
      m.Climb? && 350 <= m.toneHz <= 1800 && 30.0 <= m.beepMs <= 190.0 && m.silenceMs == m.beepMs
    ensures vario <= vario2 ==>
      var m, m2 := Decide(vario, ToneCurve, VarioCurve), Decide(vario2, ToneCurve, VarioCurve);
      m.toneHz <= m2.toneHz && m2.beepMs <= m.beepMs
  {
    var t, c := ToneCurve, VarioCurve;
    ToneCurveShape();
    VarioCurveShape();
    var v := if vario < MAX_TABLE_VARIO then vario else MAX_TABLE_VARIO;
    ValueAtRange(t, v, true);
    ValueAtRange(c, v, false);
    if vario <= vario2 {
      var v2 := if vario2 < MAX_TABLE_VARIO then vario2 else MAX_TABLE_VARIO;
      ValueAtMonotone(t, v, v2, true);
      ValueAtMonotone(c, v, v2, false);
      ValueAtRange(t, v2, true);
      TruncMonotone(ValueAt(t, v), ValueAt(t, v2));
    }
  }

  /** At or below -2 m/s the sink tone is 150 Hz for 500 ms; strictly
      between the thresholds the output is stopped for 100 ms. */
  lemma SinkAndSilentModes(vario: real, tone: seq<Point>, cycle: seq<Point>)
    requires |tone| > 0 && |cycle| > 0
    ensures vario <= SINK_TONE_ON_THRESHOLD ==> Decide(vario, tone, cycle) == Sink(150, 500)
    ensures SINK_TONE_ON_THRESHOLD < vario < CLIMB_TONE_ON_THRESHOLD ==>
      Decide(vario, tone, cycle) == Silent(100)
    ensures Decide(vario, tone, cycle).Climb? <==> vario >= CLIMB_TONE_ON_THRESHOLD
  {
    assert Trunc(150.0) == 150;
  }

  /** No coordinate of any point is zero, so `addNewPoint` never rejects one. */
  predicate NonZero(pts: seq<Point>)
  {
    forall i :: 0 <= i < |pts| ==> pts[i].x != 0.0 && pts[i].y != 0.0
  }

  /** The constructor's run of `addNewPoint` calls for the entries after the
      first: each lies beyond the last stored x, so each is appended. */
  method AddAscending(f: PiecewiseLinearFunction, pts: seq<Point>)
    requires f.points == [] && StrictlySorted(pts) && NonZero(pts)
    modifies f`points
    ensures f.points == pts
  {
    var i := 0;
    while i < |pts|
      invariant 0 <= i <= |pts| && f.points == pts[..i]
    {
      InsertedAppends(f.points, pts[i]);
      f.AddNewPoint(pts[i]);
      assert pts[..i + 1] == pts[..i] + [pts[i]];
      i := i + 1;
    }
    assert pts[..|pts|] == pts;
  }

  /** The cycle-length curve as the constructor fills it: the leading
      (0.00, 0.200) entry is rejected, the other 19 are appended in order. */
  method NewVarioFunction() returns (f: PiecewiseLinearFunction)
    ensures fresh(f) && f.points == VarioCurve
  {
    f := new PiecewiseLinearFunction();
    f.AddNewPoint(Point(0.00, 0.200));
    VarioCurveShape();
    AddAscending(f, VarioCurve);
  }

  /** The tone curve as the constructor fills it: the leading (0.00, 300)
      entry is rejected, the other 19 are appended in order. */
  method NewToneFunction() returns (f: PiecewiseLinearFunction)
    ensures fresh(f) && f.points == ToneCurve
  {
    f := new PiecewiseLinearFunction();
    f.AddNewPoint(Point(0.00, 300.0));
    ToneCurveShape();
    AddAscending(f, ToneCurve);
  }

  class BeepThread {
    var varioFunction: PiecewiseLinearFunction
    var toneFunction: PiecewiseLinearFunction
    var vario: real
    var tdiff: real
    const toneSampleRateHz: real
    const durationUSeconds: real
    const climbToneOnThreshold: real
    const sinkToneOnThreshold: real

    /** The curves hold the 19 stored entries of the two tables. */
    ghost predicate Valid()
      reads this, varioFunction, toneFunction
    {
      && varioFunction != toneFunction
      && varioFunction.points == VarioCurve
      && toneFunction.points == ToneCurve
      && climbToneOnThreshold == CLIMB_TONE_ON_THRESHOLD
      && sinkToneOnThreshold == SINK_TONE_ON_THRESHOLD
      && toneSampleRateHz == TONE_SAMPLE_RATE_HZ
    }

    /** The constructor's table set-up, one `addNewPoint` per table entry. */
    constructor ()
      ensures Valid() && fresh(varioFunction) && fresh(toneFunction)
      ensures vario == 0.0 && tdiff == 0.0 && durationUSeconds == DURATION_MS * 1000.0
    {
      vario, tdiff := 0.0, 0.0;
      toneSampleRateHz := TONE_SAMPLE_RATE_HZ;
      durationUSeconds := DURATION_MS * 1000.0;
      climbToneOnThreshold := CLIMB_TONE_ON_THRESHOLD;
      sinkToneOnThreshold := SINK_TONE_ON_THRESHOLD;

      var vf := NewVarioFunction();
      var tf := NewToneFunction();
      varioFunction, toneFunction := vf, tf;
    }

    /** The mode choice of one `run` iteration, looked up through the two
        curves for the stored climb rate. */
    method NextMode() returns (mode: BeepMode)
      requires Valid()
      ensures mode == Decide(vario, toneFunction.points, varioFunction.points)
    {
      if vario >= climbToneOnThreshold {
        var v := if vario < MAX_TABLE_VARIO then vario else MAX_TABLE_VARIO;
        var currentTone := toneFunction.GetValue(v);
        var cycle := varioFunction.GetValue(v);
        var beepDuration := cycle * 1000.0;
        var silenceDuration := beepDuration;
        mode := Climb(Trunc(currentTone), beepDuration, silenceDuration);
      } else if vario <= sinkToneOnThreshold {
        mode := Sink(Trunc(toneSampleRateHz * 0.5), 500);
      } else {
        mode := Silent(100);
      }
    }

    /** `SetVario`: stores both values and nothing else. */
    method SetVario(newVario: real, newTdiff: real)
      modifies this`vario, this`tdiff
      ensures vario == newVario && tdiff == newTdiff
    {
      vario := newVario;
      tdiff := newTdiff;
    }
  }
}
