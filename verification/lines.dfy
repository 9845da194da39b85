/**
 Slope-intercept lines and the x-extent test shared by both versions of
 the segment crossing predicate.
 */
module Lines {
  import opened Scenes
  import opened Shapes

  /** The line `y = slope * x + intercept`. */
  datatype LineEq = LineEq(slope: real, intercept: real) {
    function At(x: real): real {
      slope * x + intercept
    }
  }

  /** The line of slope `m` through `p`: the source's `b = y - m * x`. */
  function ThroughPoint(m: real, p: Point): (l: LineEq)
    ensures l.slope == m && l.At(p.x) == p.y
  {
    LineEq(m, p.y - m * p.x)
  }

  /** `xa = (b2 - b1) / (m1 - m2)`: where two non-parallel lines meet. */
  function Crossing(l1: LineEq, l2: LineEq): (x: real)
    requires l1.slope != l2.slope
    ensures l1.At(x) == l2.At(x)
  {
    var x := (l2.intercept - l1.intercept) / (l1.slope - l2.slope);
    assert (l1.slope - l2.slope) * x == l2.intercept - l1.intercept;
    x
  }

  /** Two non-parallel lines meet nowhere else. */
  lemma CrossingUnique(l1: LineEq, l2: LineEq, x: real)
    requires l1.slope != l2.slope && l1.At(x) == l2.At(x)
    ensures x == Crossing(l1, l2)
  {
    var c := Crossing(l1, l2);
    assert (l1.slope - l2.slope) * x == (l1.slope - l2.slope) * c;
    assert (l1.slope - l2.slope) * (x - c) == 0.0;
  }

  function Min(a: real, b: real): real {
    if a <= b then a else b
  }

  function Max(a: real, b: real): real {
    if a <= b then b else a
  }

  /** `x` lies strictly inside the x-extent of `s` widened by `margin` on both sides. */
  predicate InBand(margin: real, s: Segment, x: real) {
    Min(s.p0.x, s.p1.x) - margin < x < Max(s.p0.x, s.p1.x) + margin
  }

  /** The segments have an endpoint in common (exact point equality). */
  predicate SharesEndpoint(s: Segment, t: Segment) {
    s.p0 == t.p0 || s.p0 == t.p1 || s.p1 == t.p0 || s.p1 == t.p1
  }
}
