/**
 The earlier prototype of the planner: a crossing test without the EPS
 widening of the extents, a large constant slope for a vertical first
 segment, and a matrix of zeros over the obstacle vertices only.
 */
module PolygonScene {
  import opened Scenes
  import opened Shapes
  import opened Lines
  import opened Matrix
  import Numeric
  import Visibility

  /** The slope used when the first segment is vertical (`1e6`). */
  const BigSlope: real := 1000000.0

  /** The offset added to the divisor of the second segment's slope (`1e-9`). */
  const Tiny: real := 0.000000001

  /** `m1`: the true slope of `s`, or `BigSlope` when the division by zero is caught. */
  function FirstSlope(s: Segment): (m: real)
    ensures s.p0.x != s.p1.x ==> m * (s.p0.x - s.p1.x) == s.p0.y - s.p1.y
    ensures s.p0.x == s.p1.x ==> m == BigSlope
  {
    if s.p0.x - s.p1.x == 0.0 then BigSlope
    else
      var m := (s.p0.y - s.p1.y) / (s.p0.x - s.p1.x);
      assert m * (s.p0.x - s.p1.x) == s.p0.y - s.p1.y;
      m
  }

  /** `m2`: the slope of `t` with its run shifted by `Tiny`, or `BigSlope` when that run is zero. */
  function SecondSlope(t: Segment): (m: real)
    ensures t.p0.x - t.p1.x + Tiny != 0.0 ==> m * (t.p0.x - t.p1.x + Tiny) == t.p0.y - t.p1.y
    ensures t.p0.x - t.p1.x + Tiny == 0.0 ==> m == BigSlope
  {
    if t.p0.x - t.p1.x + Tiny == 0.0 then BigSlope
    else
      var m := (t.p0.y - t.p1.y) / (t.p0.x - t.p1.x + Tiny);
      assert m * (t.p0.x - t.p1.x + Tiny) == t.p0.y - t.p1.y;
      m
  }

  /**
   `lines_intersect` of the prototype: true exactly when the segments share
   no endpoint, the two slopes differ, and the lines through the first
   endpoints meet strictly inside both x-extents, with no widening.
   */
  function LinesIntersect(s: Segment, t: Segment): (r: bool)
    ensures SharesEndpoint(s, t) ==> !r
    ensures r <==>
      && !SharesEndpoint(s, t)
      && FirstSlope(s) != SecondSlope(t)
      && exists x :: ThroughPoint(FirstSlope(s), s.p0).At(x) == ThroughPoint(SecondSlope(t), t.p0).At(x)
                     && InBand(0.0, s, x) && InBand(0.0, t, x)
  {
    if s.p0 in [t.p0, t.p1] then false
    else if s.p1 in [t.p0, t.p1] then false
    else
      var l1 := ThroughPoint(FirstSlope(s), s.p0);
      var l2 := ThroughPoint(SecondSlope(t), t.p0);
      if l1.slope == l2.slope then false
      else
        var xa := Crossing(l1, l2);
        assert forall x :: l1.At(x) == l2.At(x) ==> x == xa by {
          forall x | l1.At(x) == l2.At(x) ensures x == xa {
            CrossingUnique(l1, l2, x);
          }
        }
        if !InBand(0.0, s, xa) then false
        else if !InBand(0.0, t, xa) then false
        else true
  }

  /**
   A vertical segment, in either position, is never reported as crossing:
   its x-extent is a single value, and the strict comparison leaves no room.
   */
  lemma VerticalNeverCrosses(s: Segment, t: Segment)
    requires s.p0.x == s.p1.x || t.p0.x == t.p1.x
    ensures !LinesIntersect(s, t)
  {
  }

  /** The point a fraction `a` of the way along `s`. */
  function Lerp(s: Segment, a: real): Point {
    Point(s.p0.x + a * (s.p1.x - s.p0.x), s.p0.y + a * (s.p1.y - s.p0.y))
  }

  /**
   The vertical segment from (0, -1) to (0, 1) and the horizontal one from
   (-1, 0) to (1, 0) cross at their midpoints, yet the prototype reports no
   crossing.
   */
  lemma MissesAxisCross()
    ensures var s := Segment(Point(0.0, -1.0), Point(0.0, 1.0));
      var t := Segment(Point(-1.0, 0.0), Point(1.0, 0.0));
      && Lerp(s, 0.5) == Lerp(t, 0.5) == Point(0.0, 0.0)
      && !LinesIntersect(s, t)
  {
    VerticalNeverCrosses(Segment(Point(0.0, -1.0), Point(0.0, 1.0)), Segment(Point(-1.0, 0.0), Point(1.0, 0.0)));
  }

  /**
   The planner's crossing test, whose extents are widened by EPS, reports
   the same two segments as crossing for any positive EPS other than 2 (at
   2 the horizontal segment's slope divisor would be zero).
   */
  lemma PlannerDetectsAxisCross(env: Numeric.Env)
    requires env.eps > 0.0 && env.eps != 2.0
    ensures var s := Segment(Point(0.0, -1.0), Point(0.0, 1.0));
      var t := Segment(Point(-1.0, 0.0), Point(1.0, 0.0));
      && Visibility.RunOk(env.eps, s) && Visibility.RunOk(env.eps, t)
      && Visibility.LinesIntersect(env, s, t)
  {
    Visibility.VerticalCrossingDetected(env, Segment(Point(0.0, -1.0), Point(0.0, 1.0)), Segment(Point(-1.0, 0.0), Point(1.0, 0.0)));
  }

  /** The state of the prototype `VisibilityGraphPlanner` (its matrix field is spelled `gfraph`). */
  datatype PrototypePlanner = PrototypePlanner(
    polygons: seq<Polygon>,
    start: Point,
    goal: Point,
    vertices: seq<Point>,
    graph: Grid)

  /**
   The prototype constructor: the vertices of all polygons in order, and
   `get_graph`, a zero matrix with one row and column per vertex and none
   for the start or the goal.
   */
  function NewPrototypePlanner(polys: seq<Polygon>, start: Point, goal: Point): (r: PrototypePlanner)
    ensures r.polygons == polys && r.start == start && r.goal == goal
    ensures forall v :: v in r.vertices <==> exists k :: 0 <= k < |polys| && v in polys[k].points
    ensures |r.vertices| == |Flatten(polys)|
    ensures IsSquare(r.graph, |r.vertices|)
    ensures forall a, b :: 0 <= a < |r.vertices| && 0 <= b < |r.vertices| ==> r.graph[a][b] == 0.0
  {
    var vertices := Flatten(polys);
    PrototypePlanner(polys, start, goal, vertices, Zeros(|vertices|))
  }
}
