/**
 The visibility predicate of the planner: the EPS-offset slope-intercept
 crossing test between two segments, and the scan of every polygon edge
 that decides whether a sight line is free.
 */
module Visibility {
  import opened Scenes
  import opened Shapes
  import opened Lines
  import opened Numeric

  /**
   The divisor `x1 - x2 + EPS` of the slope of `s` is non-zero. Python
   raises ZeroDivisionError otherwise, so callers must avoid it.
   */
  predicate RunOk(eps: real, s: Segment) {
    s.p0.x - s.p1.x + eps != 0.0
  }

  /**
   The line the source computes for `s`: slope `(y1 - y2) / (x1 - x2 + EPS)`
   through the first endpoint. It is the line through `p0` and through `p1`
   shifted left by EPS, which pins it down uniquely.
   */
  function OffsetLine(eps: real, s: Segment): (l: LineEq)
    requires RunOk(eps, s)
    ensures l.At(s.p0.x) == s.p0.y
    ensures l.At(s.p1.x - eps) == s.p1.y
  {
    var m := (s.p0.y - s.p1.y) / (s.p0.x - s.p1.x + eps);
    assert m * (s.p0.x - s.p1.x + eps) == s.p0.y - s.p1.y;
    ThroughPoint(m, s.p0)
  }

  lemma CrossingOnly(l1: LineEq, l2: LineEq)
    requires l1.slope != l2.slope
    ensures forall x :: l1.At(x) == l2.At(x) ==> x == Crossing(l1, l2)
  {
    forall x | l1.At(x) == l2.At(x) ensures x == Crossing(l1, l2) {
      CrossingUnique(l1, l2, x);
    }
  }

  /**
   `lines_intersect` of planner.py: true exactly when the segments share no
   endpoint, their offset lines are not parallel, and the lines meet at an
   abscissa strictly inside both x-extents widened by EPS.
   */
  function LinesIntersect(env: Env, s: Segment, t: Segment): (r: bool)
    requires RunOk(env.eps, s) && RunOk(env.eps, t)
    ensures SharesEndpoint(s, t) ==> !r
    ensures OffsetLine(env.eps, s).slope == OffsetLine(env.eps, t).slope ==> !r
    ensures r <==>
      && !SharesEndpoint(s, t)
      && OffsetLine(env.eps, s).slope != OffsetLine(env.eps, t).slope
      && exists x :: OffsetLine(env.eps, s).At(x) == OffsetLine(env.eps, t).At(x)
                     && InBand(env.eps, s, x) && InBand(env.eps, t, x)
  {
    if s.p0 in [t.p0, t.p1] then false
    else if s.p1 in [t.p0, t.p1] then false
    else
      var l1 := OffsetLine(env.eps, s);
      var l2 := OffsetLine(env.eps, t);
      if l1.slope == l2.slope then false
      else
        var xa := Crossing(l1, l2);
        CrossingOnly(l1, l2);
        if !InBand(env.eps, s, xa) then false
        else if !InBand(env.eps, t, xa) then false
        else true
  }

  /** Edge `i` of a polygon, wrapping from the last point back to the first. */
  function Edge(poly: Polygon, i: nat): Segment
    requires i < |poly.points|
  {
    Segment(poly.points[i], poly.points[(i + 1) % |poly.points|])
  }

  /** Every polygon edge has a non-zero slope divisor. */
  predicate EdgesOk(eps: real, polys: seq<Polygon>) {
    forall k, i :: 0 <= k < |polys| && 0 <= i < |polys[k].points| ==> RunOk(eps, Edge(polys[k], i))
  }

  /** The reference meaning of `is_segment_free`: no polygon edge crosses `s`. */
  predicate SegmentFree(env: Env, polys: seq<Polygon>, s: Segment)
    requires RunOk(env.eps, s) && EdgesOk(env.eps, polys)
  {
    forall k, i :: 0 <= k < |polys| && 0 <= i < |polys[k].points| ==> !LinesIntersect(env, s, Edge(polys[k], i))
  }

  /** `is_segment_free`: the edge scan with an early exit on the first crossing edge. */
  method IsSegmentFree(env: Env, polys: seq<Polygon>, s: Segment) returns (free: bool)
    requires RunOk(env.eps, s) && EdgesOk(env.eps, polys)
    ensures free <==> SegmentFree(env, polys, s)
  {
    var k := 0;
    while k < |polys|
      invariant 0 <= k <= |polys|
      invariant forall k', i :: 0 <= k' < k && 0 <= i < |polys[k'].points| ==> !LinesIntersect(env, s, Edge(polys[k'], i))
    {
      var n := |polys[k].points|;
      var i := 0;
      while i < n
        invariant 0 <= i <= n
        invariant forall i' :: 0 <= i' < i ==> !LinesIntersect(env, s, Edge(polys[k], i'))
      {
        var edge := Segment(polys[k].points[i], polys[k].points[(i + 1) % n]);
        assert edge == Edge(polys[k], i);
        if LinesIntersect(env, s, edge) {
          return false;
        }
        i := i + 1;
      }
      k := k + 1;
    }
    return true;
  }

  /** From `u * a == e * b` with `0 < b < a` and `e > 0`: `0 < u < e`. */
  lemma ShortStep(u: real, a: real, e: real, b: real)
    requires 0.0 < b < a && e > 0.0 && u * a == e * b
    ensures 0.0 < u < e
  {
    assert e * b > 0.0;
    assert e * b < e * a;
  }

  /**
   The line through `(c, y0)` with slope `m = (y0 - y1) / eps` reaches the
   height `d`, strictly between `y0` and `y1`, within `eps` to the left of `c`.
   */
  lemma SteepReach(c: real, y0: real, y1: real, d: real, eps: real, m: real, x: real)
    requires eps > 0.0 && m * eps == y0 - y1
    requires m * x + (y0 - m * c) == d
    requires Min(y0, y1) < d < Max(y0, y1)
    ensures c - eps < x < c
  {
    var q := x - c;
    assert m * q == d - y0;
    assert q * (y0 - y1) == eps * (d - y0) by {
      calc {
        q * (y0 - y1);
        q * (m * eps);
        (m * q) * eps;
        (d - y0) * eps;
      }
    }
    if y0 < y1 {
      ShortStep(-q, y1 - y0, eps, d - y0);
    } else {
      ShortStep(-q, y0 - y1, eps, y0 - d);
    }
  }

  /** The offset line of a vertical segment rises by the segment's height over a run of EPS. */
  lemma VerticalOffsetSlope(eps: real, s: Segment)
    requires eps > 0.0 && s.p0.x == s.p1.x
    ensures OffsetLine(eps, s).slope * eps == s.p0.y - s.p1.y
  {
    var l := OffsetLine(eps, s);
    assert l.At(s.p0.x) - l.At(s.p1.x - eps) == l.slope * eps;
  }

  /** The offset line of a horizontal segment is the horizontal line through it. */
  lemma FlatOffsetLine(eps: real, t: Segment)
    requires RunOk(eps, t) && t.p0.y == t.p1.y
    ensures OffsetLine(eps, t).slope == 0.0
    ensures forall x :: OffsetLine(eps, t).At(x) == t.p0.y
  {
    var l := OffsetLine(eps, t);
    var run := t.p0.x - t.p1.x + eps;
    assert l.At(t.p0.x) - l.At(t.p1.x - eps) == l.slope * run;
    assert l.slope * run == 0.0;
  }

  /**
   A vertical sight line crossing a horizontal edge strictly inside both is
   reported: the EPS widening keeps the crossing of the steep offset line
   within the line's own degenerate x-extent.
   */
  lemma VerticalCrossingDetected(env: Env, s: Segment, t: Segment)
    requires env.eps > 0.0
    requires s.p0.x == s.p1.x && t.p0.y == t.p1.y
    requires Min(t.p0.x, t.p1.x) < s.p0.x < Max(t.p0.x, t.p1.x)
    requires Min(s.p0.y, s.p1.y) < t.p0.y < Max(s.p0.y, s.p1.y)
    requires RunOk(env.eps, t)
    ensures LinesIntersect(env, s, t)
  {
    var eps := env.eps;
    var l1 := OffsetLine(eps, s);
    var l2 := OffsetLine(eps, t);
    VerticalOffsetSlope(eps, s);
    FlatOffsetLine(eps, t);
    assert l1.slope != 0.0;
    var xa := Crossing(l1, l2);
    assert l1.At(xa) == t.p0.y;
    assert l1 == LineEq(l1.slope, s.p0.y - l1.slope * s.p0.x);
    SteepReach(s.p0.x, s.p0.y, s.p1.y, t.p0.y, eps, l1.slope, xa);
    assert InBand(eps, s, xa);
    assert InBand(eps, t, xa);
    assert !SharesEndpoint(s, t);
  }
}
