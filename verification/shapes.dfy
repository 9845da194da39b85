/**
 Segments, polygons and paths, and the flattening of a polygon list into
 the vertex enumeration both planners use.
 */
module Shapes {
  import opened Scenes
  import opened Outcomes
  import opened Numeric

  /** A segment from `p0` to `p1`; the order of the endpoints is kept. */
  datatype Segment = Segment(p0: Point, p1: Point)

  /** The segment traversed the other way. */
  function Reverse(s: Segment): Segment {
    Segment(s.p1, s.p0)
  }

  function Square(v: real): (r: real)
    ensures r >= 0.0
  {
    v * v
  }

  /** `Segment.len`: the Euclidean length. */
  function Len(env: Env, s: Segment): (r: real)
    requires env.Valid()
    ensures r >= 0.0
    ensures s.p0 == s.p1 ==> r == 0.0
  {
    env.sqrt(Square(s.p0.x - s.p1.x) + Square(s.p0.y - s.p1.y))
  }

  /** The length does not depend on the direction of travel. */
  lemma LenSymmetric(env: Env, s: Segment)
    requires env.Valid()
    ensures Len(env, Reverse(s)) == Len(env, s)
  {
    assert Square(s.p1.x - s.p0.x) == Square(s.p0.x - s.p1.x);
    assert Square(s.p1.y - s.p0.y) == Square(s.p0.y - s.p1.y);
  }

  /** An obstacle boundary, traversed in its stored order and closed from last to first. */
  datatype Polygon = Polygon(points: seq<Point>) {
    /** `Polygon.n_vertices` */
    function NVertices(): nat {
      |points|
    }
  }

  /** An entry of the list handed to the `Polygon` constructor. */
  datatype Entry = PointEntry(point: Point) | ListEntry(coords: seq<real>) | OtherEntry

  /** The exceptions the constructor can raise. */
  datatype PolygonError =
    | IndexOutOfRange   // `points[0]` on an empty list
    | WrongArity        // `Point(*point)` on a list that is not a coordinate pair
    | NotRecognized     // the "Not recgonized data type" RuntimeError

  predicate IsPair(e: Entry) {
    e.ListEntry? && |e.coords| == 2
  }

  /** `[Point(*point) for point in points]`, failing on the first entry that is not a pair. */
  function PointsOfPairs(es: seq<Entry>): (r: Result<seq<Point>, PolygonError>)
    ensures r.Success? <==> forall i :: 0 <= i < |es| ==> IsPair(es[i])
    ensures r.Success? ==> (|r.value| == |es| &&
      forall i :: 0 <= i < |es| ==> r.value[i] == Point(es[i].coords[0], es[i].coords[1]))
    ensures r.Failure? ==> r.error == WrongArity
  {
    if |es| == 0 then Success([])
    else if !IsPair(es[0]) then Failure(WrongArity)
    else
      match PointsOfPairs(es[1..])
      case Failure(e) => Failure(e)
      case Success(rest) => Success([Point(es[0].coords[0], es[0].coords[1])] + rest)
  }

  /**
   The `Polygon` constructor. Only the first entry decides how the list is
   read; a list that starts with a Point must hold Points only, since Python
   would store any other entry unchecked.
   */
  function NewPolygon(es: seq<Entry>): (r: Result<Polygon, PolygonError>)
    requires |es| > 0 && es[0].PointEntry? ==> forall i :: 0 <= i < |es| ==> es[i].PointEntry?
    ensures r.Success? ==> r.value.NVertices() == |es|
    ensures |es| == 0 ==> r == Failure(IndexOutOfRange)
    ensures |es| > 0 && es[0].PointEntry? ==>
      r.Success? && forall i :: 0 <= i < |es| ==> r.value.points[i] == es[i].point
    ensures |es| > 0 && es[0].ListEntry? ==>
      (r.Success? <==> forall i :: 0 <= i < |es| ==> IsPair(es[i])) &&
      (r.Success? ==> forall i :: 0 <= i < |es| ==> r.value.points[i] == Point(es[i].coords[0], es[i].coords[1])) &&
      (r.Failure? ==> r.error == WrongArity)
    ensures |es| > 0 && es[0].OtherEntry? ==> r == Failure(NotRecognized)
  {
    if |es| == 0 then Failure(IndexOutOfRange)
    else
      match es[0]
      case PointEntry(_) => Success(Polygon(seq(|es|, i requires 0 <= i < |es| => es[i].point)))
      case ListEntry(_) =>
        (match PointsOfPairs(es)
         case Success(pts) => Success(Polygon(pts))
         case Failure(e) => Failure(e))
      case OtherEntry => Failure(NotRecognized)
  }

  /** The result of a shortest-path query: a plain container of points. */
  datatype Path = Path(points: seq<Point>)

  /** The vertex list of a scene: every polygon's points, polygon by polygon. */
  function Flatten(polys: seq<Polygon>): (r: seq<Point>)
    ensures forall p :: p in r <==> exists k :: 0 <= k < |polys| && p in polys[k].points
  {
    if |polys| == 0 then []
    else
      var rest := Flatten(polys[1..]);
      assert forall p :: (exists k :: 0 <= k < |polys| && p in polys[k].points) <==>
        p in polys[0].points || exists k :: 0 <= k < |polys[1..]| && p in polys[1..][k].points by {
        forall p | exists k :: 0 <= k < |polys| && p in polys[k].points
          ensures p in polys[0].points || exists k :: 0 <= k < |polys[1..]| && p in polys[1..][k].points
        {
          var k :| 0 <= k < |polys| && p in polys[k].points;
          if k > 0 {
            assert polys[1..][k - 1] == polys[k];
          }
        }
      }
      polys[0].points + rest
  }

  /** Flattening is a concatenation: the vertices of two scenes follow each other. */
  lemma {:induction false} FlattenAppend(a: seq<Polygon>, b: seq<Polygon>)
    ensures Flatten(a + b) == Flatten(a) + Flatten(b)
    decreases |a|
  {
    if |a| > 0 {
      assert (a + b)[1..] == a[1..] + b;
      FlattenAppend(a[1..], b);
    } else {
      assert a + b == b;
    }
  }

  /** One polygon contributes exactly its own points, in their order. */
  lemma FlattenSingle(poly: Polygon)
    ensures Flatten([poly]) == poly.points
  {
  }

  /** Vertex `i` of polygon `k` sits in the vertex list after all vertices of the earlier polygons. */
  lemma FlattenIndex(polys: seq<Polygon>, k: nat, i: nat)
    requires k < |polys| && i < |polys[k].points|
    ensures |Flatten(polys[..k])| + i < |Flatten(polys)|
    ensures Flatten(polys)[|Flatten(polys[..k])| + i] == polys[k].points[i]
  {
    assert polys == polys[..k] + ([polys[k]] + polys[k + 1..]);
    FlattenAppend(polys[..k], [polys[k]] + polys[k + 1..]);
    FlattenAppend([polys[k]], polys[k + 1..]);
  }
}
