/**
 Which polygon a vertex belongs to, and the angle rule that recognises a
 segment from a polygon vertex pointing into that polygon's interior.
 */
module Diagonals {
  import opened Scenes
  import opened Shapes
  import opened Outcomes
  import opened Numeric

  /** `list.index`: the first position of `p` in `s`. */
  function IndexOf(s: seq<Point>, p: Point): (r: nat)
    requires p in s
    ensures r < |s| && s[r] == p
    ensures forall i :: 0 <= i < r ==> s[i] != p
  {
    if s[0] == p then 0 else 1 + IndexOf(s[1..], p)
  }

  /**
   `get_vertex_polygon`: the position of the first polygon that has `v`
   among its points, or None. Polygons have no equality of their own in the
   source, so the planner compares these positions.
   */
  function VertexPolygon(polys: seq<Polygon>, v: Point): (r: Option<nat>)
    ensures r.Some? ==> r.value < |polys| && v in polys[r.value].points
    ensures r.Some? ==> forall k :: 0 <= k < r.value ==> v !in polys[k].points
    ensures r.None? <==> forall k :: 0 <= k < |polys| ==> v !in polys[k].points
  {
    if |polys| == 0 then None
    else if v in polys[0].points then Some(0)
    else
      match VertexPolygon(polys[1..], v)
      case None => None
      case Some(k) => Some(k + 1)
  }

  /** Every scene vertex is found in some polygon. */
  lemma VertexPolygonFound(polys: seq<Polygon>, v: Point)
    requires v in Flatten(polys)
    ensures VertexPolygon(polys, v).Some?
  {
  }

  /** The direction angle of the vector from `a` to `b`, `np.arctan2(dy, dx)`. */
  function Direction(env: Env, a: Point, b: Point): (r: real)
    requires env.Valid()
    ensures -env.pi < r <= env.pi
  {
    env.atan2(b.y - a.y, b.x - a.x)
  }

  /**
   `while a < anchor: a += period`: the angle moved up by whole periods
   until it is no longer below the anchor, and then below anchor + period.
   */
  function Unwind(a: real, anchor: real, period: real): (r: real)
    requires period > 0.0
    ensures r >= anchor
    ensures a >= anchor ==> r == a
    ensures a < anchor ==> r < anchor + period
    decreases if a < anchor then ((anchor - a) / period).Floor + 1 else 0
  {
    if a < anchor then
      DivShift(anchor - a, period);
      assert anchor - (a + period) == (anchor - a) - period;
      Unwind(a + period, anchor, period)
    else a
  }

  lemma DivShift(n: real, p: real)
    requires p > 0.0
    ensures (n - p) / p == n / p - 1.0
  {
    var z := n / p;
    var w := (n - p) / p;
    assert z * p == n;
    assert w * p == n - p;
    assert (w - (z - 1.0)) * p == 0.0;
    ZeroFactor(w - (z - 1.0), p);
  }

  lemma ZeroFactor(a: real, p: real)
    requires p > 0.0 && a * p == 0.0
    ensures a == 0.0
  {
  }

  /** The angle `a` moved up by `k` whole periods. */
  function Shifted(a: real, k: nat, period: real): real {
    a + k as real * period
  }

  /** Unwinding only adds whole periods, so the direction the angle stands for is kept. */
  lemma {:induction false} UnwindKeepsDirection(a: real, anchor: real, period: real)
    requires period > 0.0
    ensures exists k: nat :: Unwind(a, anchor, period) == Shifted(a, k, period)
    decreases if a < anchor then ((anchor - a) / period).Floor + 1 else 0
  {
    if a < anchor {
      DivShift(anchor - a, period);
      assert anchor - (a + period) == (anchor - a) - period;
      UnwindKeepsDirection(a + period, anchor, period);
      var k: nat :| Unwind(a + period, anchor, period) == Shifted(a + period, k, period);
      assert Shifted(a + period, k, period) == Shifted(a, k + 1, period);
    } else {
      assert Unwind(a, anchor, period) == Shifted(a, 0, period);
    }
  }

  /** The closed form of one unwinding step. */
  function Lift(a: real, anchor: real, period: real): real {
    if a < anchor then a + period else a
  }

  /** When one period is enough, the loop body runs at most once. */
  lemma UnwindOnce(a: real, anchor: real, period: real)
    requires period > 0.0 && a + period >= anchor
    ensures Unwind(a, anchor, period) == Lift(a, anchor, period)
  {
  }

  /** The point after `u` on the boundary (the source calls it `prev_start`). */
  function AfterVertex(poly: Polygon, u: Point): Point
    requires u in poly.points
  {
    poly.points[(IndexOf(poly.points, u) + 1) % |poly.points|]
  }

  /** The point before `u` on the boundary (the source's `next_to_start`); Python's `%` wraps -1 to n - 1. */
  function BeforeVertex(poly: Polygon, u: Point): Point
    requires u in poly.points
  {
    poly.points[(IndexOf(poly.points, u) - 1) % |poly.points|]
  }

  /**
   `is_inner_diagonal`: with the direction to the point before `u` as the
   anchor, the direction of `u -> v` lies strictly between the anchor and
   the direction to the point after `u`, once both are unwound above the
   anchor. Because arctan2 stays in (-pi, pi], each unwinding adds 2 pi at
   most once.
   */
  function InnerDiagonal(env: Env, u: Point, v: Point, poly: Polygon): (r: bool)
    requires env.Valid() && u in poly.points
    ensures var anchor := Direction(env, u, BeforeVertex(poly, u));
      var angle := Lift(Direction(env, u, v), anchor, 2.0 * env.pi);
      var after := Lift(Direction(env, u, AfterVertex(poly, u)), anchor, 2.0 * env.pi);
      r <==> anchor < angle < after
  {
    var period := 2.0 * env.pi;
    var nextToAngle := Direction(env, u, BeforeVertex(poly, u));
    var angle := Unwind(Direction(env, u, v), nextToAngle, period);
    var prevAngle := Unwind(Direction(env, u, AfterVertex(poly, u)), nextToAngle, period);
    UnwindOnce(Direction(env, u, v), nextToAngle, period);
    UnwindOnce(Direction(env, u, AfterVertex(poly, u)), nextToAngle, period);
    nextToAngle < angle < prevAngle
  }

  /** The two boundary edges at `u` are never inner diagonals. */
  lemma BoundaryEdgesNotInner(env: Env, poly: Polygon, u: Point)
    requires env.Valid() && u in poly.points
    ensures !InnerDiagonal(env, u, BeforeVertex(poly, u), poly)
    ensures !InnerDiagonal(env, u, AfterVertex(poly, u), poly)
  {
  }
}
