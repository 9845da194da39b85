/**
 The scene-side value types of the planner: points, the free-hand polylines
 captured while the user draws an obstacle, and the mapping from screen
 pixels to the orthographic [-1, 1] square. Window, event and OpenGL code
 is not part of this model.
 */
module Scenes {

  /** A point of the plane. */
  datatype Point = Point(x: real, y: real)

  /** `Point.__eq__`: two points are equal exactly when both coordinates are. */
  function Equals(p: Point, q: Point): (r: bool)
    ensures r <==> p == q
  {
    p.x == q.x && p.y == q.y
  }

  /** No two neighbouring points of `s` are equal. */
  predicate NoStutter(s: seq<Point>) {
    forall i :: 0 <= i < |s| - 1 ==> s[i] != s[i + 1]
  }

  /** A polyline under construction. */
  datatype Line = Line(points: seq<Point>)

  /** `Line.append`: a point equal to the current last point is dropped. */
  function Append(l: Line, p: Point): (r: Line)
    ensures |l.points| > 0 && l.points[|l.points| - 1] == p ==> r == l
    ensures !(|l.points| > 0 && l.points[|l.points| - 1] == p) ==> r.points == l.points + [p]
    ensures |r.points| > 0 && r.points[|r.points| - 1] == p
    ensures NoStutter(l.points) ==> NoStutter(r.points)
  {
    if |l.points| > 0 && Equals(l.points[|l.points| - 1], p) then l
    else Line(l.points + [p])
  }

  /** The line obtained by appending the points of `ps`, in order, to an empty line. */
  function Capture(ps: seq<Point>): (r: Line)
    ensures NoStutter(r.points)
    ensures forall q :: q in r.points <==> q in ps
    ensures |ps| > 0 ==> |r.points| > 0 && r.points[|r.points| - 1] == ps[|ps| - 1]
    ensures |r.points| <= |ps|
  {
    if |ps| == 0 then Line([])
    else
      var prefix := Capture(ps[..|ps| - 1]);
      assert forall q :: q in ps <==> q in ps[..|ps| - 1] || q == ps[|ps| - 1] by {
        assert ps == ps[..|ps| - 1] + [ps[|ps| - 1]];
      }
      Append(prefix, ps[|ps| - 1])
  }

  /** Capturing a stroke that never repeats a point twice in a row keeps every point. */
  lemma {:induction false} CaptureKeepsStutterFree(ps: seq<Point>)
    requires NoStutter(ps)
    ensures Capture(ps).points == ps
    decreases |ps|
  {
    if |ps| > 0 {
      var init := ps[..|ps| - 1];
      assert NoStutter(init) by {
        forall i | 0 <= i < |init| - 1 ensures init[i] != init[i + 1] {
          assert init[i] == ps[i] && init[i + 1] == ps[i + 1];
        }
      }
      CaptureKeepsStutterFree(init);
      if |init| > 0 {
        assert init[|init| - 1] == ps[|ps| - 2];
      }
      assert ps == init + [ps[|ps| - 1]];
    }
  }

  /** Capturing is idempotent: re-capturing a captured line changes nothing. */
  lemma CaptureIdempotent(ps: seq<Point>)
    ensures Capture(Capture(ps).points) == Capture(ps)
  {
    CaptureKeepsStutterFree(Capture(ps).points);
  }

  /** A polyline that remembers whether it has already closed on itself. */
  datatype Loop = Loop(line: Line, looped: bool)

  /** A freshly started obstacle stroke. */
  const EmptyLoop: Loop := Loop(Line([]), false)

  /** `Loop` inherits `Line.append`; the closure flag is left alone. */
  function LoopAppend(l: Loop, p: Point): Loop {
    l.(line := Append(l.line, p))
  }

  /**
   `Loop.is_loop`: the answer and the loop with its updated flag. Once the
   flag is set it answers true without looking at the points again.
   */
  function IsLoop(l: Loop): (r: (bool, Loop))
    ensures r.1.line == l.line
    ensures |l.line.points| == 0 ==> !r.0 && r.1 == l
    ensures |l.line.points| > 0 ==>
      var pts := l.line.points;
      (r.0 <==> l.looped || pts[|pts| - 1] in pts[..|pts| - 1]) && r.1.looped == r.0
    ensures l.looped ==> r.1.looped
  {
    var pts := l.line.points;
    if |pts| == 0 then (false, l)
    else if l.looped then (true, l)
    else
      var closed := pts[|pts| - 1] in pts[..|pts| - 1];
      (closed, l.(looped := closed))
  }

  /** Asking twice gives the same answer and leaves the same state. */
  lemma IsLoopIdempotent(l: Loop)
    ensures IsLoop(IsLoop(l).1) == IsLoop(l)
  {
  }

  /** A stroke that has closed stays closed, whatever is appended afterwards. */
  lemma LoopStaysClosed(l: Loop, p: Point)
    requires IsLoop(l).0
    ensures IsLoop(LoopAppend(IsLoop(l).1, p)).0
  {
  }

  /**
   On a stroke captured through `append`, a newly detected closure meets a
   point at least two places back: the closed part has at least two edges.
   */
  lemma LoopClosesTwoBack(l: Loop)
    requires NoStutter(l.line.points) && !l.looped && IsLoop(l).0
    ensures var pts := l.line.points;
      exists i :: 0 <= i < |pts| - 2 && pts[i] == pts[|pts| - 1]
  {
    var pts := l.line.points;
    var last := pts[|pts| - 1];
    assert last in pts[..|pts| - 1];
    var i :| 0 <= i < |pts| - 1 && pts[..|pts| - 1][i] == last;
    assert pts[i] == last;
    assert i != |pts| - 2;
  }

  /** Only the screen size of a scene matters to the coordinate mapping. */
  datatype Scene = Scene(width: int, height: int)

  /** `Scene.to_ortho`: pixels to the [-1, 1] orthographic square. */
  function ToOrtho(sc: Scene, p: Point): (r: Point)
    requires sc.width != 0 && sc.height != 0
    ensures p.x == 0.0 ==> r.x == -1.0
    ensures p.x == sc.width as real ==> r.x == 1.0
    ensures p.y == 0.0 ==> r.y == -1.0
    ensures p.y == sc.height as real ==> r.y == 1.0
    ensures sc.width > 0 && 0.0 <= p.x <= sc.width as real ==> -1.0 <= r.x <= 1.0
    ensures sc.height > 0 && 0.0 <= p.y <= sc.height as real ==> -1.0 <= r.y <= 1.0
  {
    var w := sc.width as real;
    var h := sc.height as real;
    OrthoBounds(p.x, w);
    OrthoBounds(p.y, h);
    Point((2.0 * p.x - w) / w, (2.0 * p.y - h) / h)
  }

  lemma OrthoBounds(v: real, w: real)
    requires w != 0.0
    ensures v == 0.0 ==> (2.0 * v - w) / w == -1.0
    ensures v == w ==> (2.0 * v - w) / w == 1.0
    ensures w > 0.0 && 0.0 <= v <= w ==> -1.0 <= (2.0 * v - w) / w <= 1.0
  {
    if v == 0.0 {
      assert 2.0 * v - w == -1.0 * w;
    }
    if v == w {
      assert 2.0 * v - w == 1.0 * w;
    }
    if w > 0.0 && 0.0 <= v <= w {
      var r := (2.0 * v - w) / w;
      assert r * w == 2.0 * v - w;
      assert -w <= 2.0 * v - w <= w;
    }
  }

  /** The inverse mapping, from the orthographic square back to pixels. */
  function FromOrtho(sc: Scene, q: Point): Point {
    Point((q.x + 1.0) * sc.width as real / 2.0, (q.y + 1.0) * sc.height as real / 2.0)
  }

  /** `to_ortho` loses nothing: mapping back recovers the pixel position. */
  lemma OrthoRoundTrip(sc: Scene, p: Point)
    requires sc.width != 0 && sc.height != 0
    ensures FromOrtho(sc, ToOrtho(sc, p)) == p
  {
    var w := sc.width as real;
    var h := sc.height as real;
    var q := ToOrtho(sc, p);
    assert q.x * w == 2.0 * p.x - w;
    assert q.y * h == 2.0 * p.y - h;
    assert (q.x + 1.0) * w == 2.0 * p.x;
    assert (q.y + 1.0) * h == 2.0 * p.y;
  }

  /** Every orthographic point is the image of some pixel position. */
  lemma OrthoOnto(sc: Scene, q: Point)
    requires sc.width != 0 && sc.height != 0
    ensures ToOrtho(sc, FromOrtho(sc, q)) == q
  {
    var w := sc.width as real;
    var h := sc.height as real;
    var p := FromOrtho(sc, q);
    assert 2.0 * p.x - w == q.x * w;
    assert 2.0 * p.y - h == q.y * h;
    assert (q.x * w) / w == q.x;
    assert (q.y * h) / h == q.y;
  }
}
