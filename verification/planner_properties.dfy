/**
 Properties relating the planner's operations: the setters keep the matrix
 consistent with the current start and goal, and an incremental update
 agrees with a fresh build from the moved point.
 */
module PlannerProperties {
  import opened Scenes
  import opened Shapes
  import opened Numeric
  import opened Visibility
  import opened Matrix
  import opened Planner

  /**
   Every cell holds its full-build value, except that the start-goal cell
   `[n + 1][n]` may come from either direction of the sight line: the start
   setter writes it from `start -> goal`, the goal setter from `goal -> start`.
   */
  ghost predicate Consistent(env: Env, pl: VisibilityGraphPlanner)
    requires Ready(env, pl)
  {
    var n := pl.N();
    && (forall a, b :: 0 <= a < n + 2 && 0 <= b < n + 2 && !(a == n + 1 && b == n) ==>
          pl.graph[a][b] == BuiltCell(env, pl, a, b))
    && (pl.graph[n + 1][n] == Weight(env, pl.polygons, pl.goal, pl.start)
        || pl.graph[n + 1][n] == Weight(env, pl.polygons, pl.start, pl.goal))
  }

  /** A freshly built planner is consistent. */
  lemma BuiltIsConsistent(env: Env, pl: VisibilityGraphPlanner)
    requires Ready(env, pl) && Built(env, pl)
    ensures Consistent(env, pl)
  {
  }

  /** A planner can be built from scratch with the moved start. */
  lemma StartMoveBuildable(env: Env, pl: VisibilityGraphPlanner, p: Point)
    requires Ready(env, pl) && StartMoveOk(env.eps, pl, p)
    ensures env.Valid() && SightLinesOk(env.eps, Flatten(pl.polygons), p, pl.goal) && EdgesOk(env.eps, pl.polygons)
  {
  }

  /** Moving the start keeps the matrix consistent with the new start. */
  lemma SetStartKeepsConsistent(env: Env, pl: VisibilityGraphPlanner, p: Point)
    requires Ready(env, pl) && Consistent(env, pl) && StartMoveOk(env.eps, pl, p)
    ensures Consistent(env, SetStart(env, pl, p))
  {
  }

  /** Moving the goal rewrites every cell that depends on it, so the build invariant is restored. */
  lemma SetGoalRestoresBuilt(env: Env, pl: VisibilityGraphPlanner, p: Point)
    requires Ready(env, pl) && Consistent(env, pl) && GoalMoveOk(env.eps, pl, p)
    ensures Built(env, SetGoal(env, pl, p))
  {
  }

  /** The full-build value of a cell depends on the scene, the start and the goal, not on the matrix. */
  lemma BuiltCellOfScene(env: Env, p: VisibilityGraphPlanner, q: VisibilityGraphPlanner, a: nat, b: nat)
    requires Ready(env, p) && Ready(env, q) && p.(graph := q.graph) == q
    requires a < p.N() + 2 && b < p.N() + 2
    ensures BuiltCell(env, p, a, b) == BuiltCell(env, q, a, b)
  {
  }

  /** Two built planners over the same scene, start and goal are the same planner. */
  lemma BuiltIsUnique(env: Env, p: VisibilityGraphPlanner, q: VisibilityGraphPlanner)
    requires Ready(env, p) && Ready(env, q) && p.(graph := q.graph) == q
    requires Built(env, p) && Built(env, q)
    ensures p == q
  {
    var m := p.N() + 2;
    forall a, b | 0 <= a < m && 0 <= b < m ensures p.graph[a][b] == q.graph[a][b] {
      BuiltCellOfScene(env, p, q, a, b);
    }
    SameCells(p.graph, q.graph, m);
  }

  /**
   Moving the goal of a consistent planner (a built one, or one whose start
   has moved since) gives exactly the planner built with the current start
   and the new goal.
   */
  lemma SetGoalMatchesRebuild(env: Env, pl: VisibilityGraphPlanner, g': Point)
    requires Ready(env, pl) && Consistent(env, pl) && GoalMoveOk(env.eps, pl, g')
    ensures SetGoal(env, pl, g') == NewPlanner(env, pl.polygons, pl.start, g')
  {
    SetGoalRestoresBuilt(env, pl, g');
    BuiltIsUnique(env, SetGoal(env, pl, g'), NewPlanner(env, pl.polygons, pl.start, g'));
  }

  /**
   Moving the start of a consistent planner gives the matrix a fresh build from
   the moved start would give, in the start row and in every cell other than
   the start-goal cell.
   */
  lemma SetStartMatchesRebuild(env: Env, pl: VisibilityGraphPlanner, s': Point)
    requires Ready(env, pl) && Consistent(env, pl) && StartMoveOk(env.eps, pl, s')
    ensures var moved := SetStart(env, pl, s');
      var rebuilt := NewPlanner(env, pl.polygons, s', pl.goal);
      var n := pl.N();
      && moved.graph[n] == rebuilt.graph[n]
      && (forall a, b :: 0 <= a < n + 2 && 0 <= b < n + 2 && !(a == n + 1 && b == n) ==>
            moved.graph[a][b] == rebuilt.graph[a][b])
  {
    StartMoveBuildable(env, pl, s');
    SetStartKeepsConsistent(env, pl, s');
    ConsistentMatchesBuilt(env, SetStart(env, pl, s'), NewPlanner(env, pl.polygons, s', pl.goal));
  }

  /**
   After the start of a built planner moves, the start-goal cell agrees with
   a fresh build exactly when the sight line between the moved start and the
   goal is free in both directions or in neither.
   */
  lemma SetStartGoalCellIff(env: Env, pl: VisibilityGraphPlanner, s': Point)
    requires Ready(env, pl) && StartMoveOk(env.eps, pl, s')
    ensures var moved := SetStart(env, pl, s');
      var rebuilt := NewPlanner(env, pl.polygons, s', pl.goal);
      var n := pl.N();
      (moved.graph[n + 1][n] == rebuilt.graph[n + 1][n] <==>
        (SegmentFree(env, pl.polygons, Segment(s', pl.goal)) <==> SegmentFree(env, pl.polygons, Segment(pl.goal, s'))))
  {
    StartMoveBuildable(env, pl, s');
    var moved := SetStart(env, pl, s');
    var rebuilt := NewPlanner(env, pl.polygons, s', pl.goal);
    var n := pl.N();
    BuiltStartGoalCell(env, rebuilt);
    StartGoalCell(env, pl.polygons, s', pl.goal, moved.graph[n + 1][n], rebuilt.graph[n + 1][n]);
  }

  /**
   Assigning a built planner's own start back to it leaves the planner
   unchanged exactly when the sight line between start and goal is free in
   both directions or in neither.
   */
  lemma ReassignStartUnchangedIff(env: Env, pl: VisibilityGraphPlanner)
    requires Ready(env, pl) && Built(env, pl)
    ensures RunOk(env.eps, Segment(pl.start, pl.goal)) && RunOk(env.eps, Segment(pl.goal, pl.start))
    ensures SetStart(env, pl, pl.start) == pl <==>
      (SegmentFree(env, pl.polygons, Segment(pl.start, pl.goal)) <==> SegmentFree(env, pl.polygons, Segment(pl.goal, pl.start)))
  {
    var n := pl.N();
    var moved := SetStart(env, pl, pl.start);
    BuiltIsConsistent(env, pl);
    SetStartKeepsConsistent(env, pl, pl.start);
    ConsistentMatchesBuilt(env, moved, pl);
    BuiltStartGoalCell(env, pl);
    StartGoalCell(env, pl.polygons, pl.start, pl.goal, moved.graph[n + 1][n], pl.graph[n + 1][n]);
    if moved.graph[n + 1][n] == pl.graph[n + 1][n] {
      SameCells(moved.graph, pl.graph, n + 2);
    }
  }

  /** A full build fills the start-goal cell from the sight line `goal -> start`. */
  lemma BuiltStartGoalCell(env: Env, pl: VisibilityGraphPlanner)
    requires Ready(env, pl) && Built(env, pl)
    ensures pl.graph[pl.N() + 1][pl.N()] == Weight(env, pl.polygons, pl.goal, pl.start)
  {
    assert pl.graph[pl.N() + 1][pl.N()] == BuiltCell(env, pl, pl.N() + 1, pl.N());
  }

  /**
   A consistent matrix and the built one for the same scene, start and goal
   agree everywhere except possibly in the start-goal cell.
   */
  lemma ConsistentMatchesBuilt(env: Env, p: VisibilityGraphPlanner, q: VisibilityGraphPlanner)
    requires Ready(env, p) && Ready(env, q) && p.(graph := q.graph) == q
    requires Consistent(env, p) && Built(env, q)
    ensures var n := q.N();
      && p.graph[n] == q.graph[n]
      && (forall a, b :: 0 <= a < n + 2 && 0 <= b < n + 2 && !(a == n + 1 && b == n) ==>
            p.graph[a][b] == q.graph[a][b])
  {
    var n := q.N();
    forall a, b | 0 <= a < n + 2 && 0 <= b < n + 2 && !(a == n + 1 && b == n)
      ensures p.graph[a][b] == q.graph[a][b]
    {
      BuiltCellOfScene(env, p, q, a, b);
    }
    assert p.graph[n] == q.graph[n] by {
      forall b | 0 <= b < n + 2 ensures p.graph[n][b] == q.graph[n][b] {
      }
    }
  }

  /** The start setter's and the goal setter's values of the start-goal cell. */
  lemma StartGoalCell(env: Env, polys: seq<Polygon>, s: Point, g: Point, fromStart: real, fromGoal: real)
    requires env.Valid() && RunOk(env.eps, Segment(s, g)) && RunOk(env.eps, Segment(g, s)) && EdgesOk(env.eps, polys)
    requires fromStart == Weight(env, polys, s, g) && fromGoal == Weight(env, polys, g, s)
    ensures fromStart == fromGoal <==> (SegmentFree(env, polys, Segment(s, g)) <==> SegmentFree(env, polys, Segment(g, s)))
  {
    LenSymmetric(env, Segment(s, g));
    assert Reverse(Segment(s, g)) == Segment(g, s);
  }
}

/**
 A concrete scene showing that the start-goal cell depends on the setter
 that wrote it last.
 */
module PlannerExample {
  import opened Scenes
  import opened Shapes
  import opened Numeric
  import opened Lines
  import opened Visibility
  import opened Planner
  import opened PlannerProperties

  /** A thin triangle whose top edge passes left of the sight line between the two points. */
  const Triangle := Polygon([Point(-10.0, 1.9), Point(-1.5, 1.9), Point(-10.0, 1.8)])
  const DemoStart := Point(0.0, 0.0)
  const DemoGoal := Point(0.0, 2.0)

  const Up := Segment(DemoStart, DemoGoal)
  const Down := Segment(DemoGoal, DemoStart)
  const Top := Segment(Point(-10.0, 1.9), Point(-1.5, 1.9))
  const Slant := Segment(Point(-1.5, 1.9), Point(-10.0, 1.8))
  const Side := Segment(Point(-10.0, 1.8), Point(-10.0, 1.9))

  /** The offset lines with EPS = 1. */
  lemma DemoLines()
    ensures OffsetLine(1.0, Up) == LineEq(-2.0, 0.0)
    ensures OffsetLine(1.0, Down) == LineEq(2.0, 2.0)
    ensures OffsetLine(1.0, Top) == LineEq(0.0, 1.9)
    ensures OffsetLine(1.0, Slant) == LineEq(1.0 / 95.0, 1.9 + 1.5 / 95.0)
    ensures OffsetLine(1.0, Side) == LineEq(-0.1, 0.8)
  {
    UpLine();
    DownLine();
    TopLine();
    SlantLine();
    SideLine();
  }

  lemma UpLine() ensures OffsetLine(1.0, Up) == LineEq(-2.0, 0.0) {
    assert OffsetLine(1.0, Up).slope == -2.0;
  }

  lemma DownLine() ensures OffsetLine(1.0, Down) == LineEq(2.0, 2.0) {
    assert OffsetLine(1.0, Down).slope == 2.0;
  }

  lemma TopLine() ensures OffsetLine(1.0, Top) == LineEq(0.0, 1.9) {
    assert OffsetLine(1.0, Top).slope == 0.0;
  }

  lemma SlantLine() ensures OffsetLine(1.0, Slant) == LineEq(1.0 / 95.0, 1.9 + 1.5 / 95.0) {
    assert OffsetLine(1.0, Slant).slope == 1.0 / 95.0;
  }

  lemma SideLine() ensures OffsetLine(1.0, Side) == LineEq(-0.1, 0.8) {
    assert OffsetLine(1.0, Side).slope == -0.1;
  }

  /** Seen from the start, the offset line meets the top edge at x = -0.95, inside both extents. */
  lemma UpMeetsTop(env: Env)
    requires env.eps == 1.0
    ensures LinesIntersect(env, Up, Top)
  {
    DemoLines();
    assert Crossing(LineEq(-2.0, 0.0), LineEq(0.0, 1.9)) == -0.95;
  }

  /** Seen from the goal, the offset line meets the top edge's line at x = -0.05, right of the edge. */
  lemma DownMissesTop(env: Env)
    requires env.eps == 1.0
    ensures !LinesIntersect(env, Down, Top)
  {
    DemoLines();
    assert Crossing(LineEq(2.0, 2.0), LineEq(0.0, 1.9)) == -0.05;
  }

  /** The slanted edge's line is met at x = -8/189, right of the edge. */
  lemma DownMissesSlant(env: Env)
    requires env.eps == 1.0
    ensures !LinesIntersect(env, Down, Slant)
  {
    DemoLines();
    assert Crossing(LineEq(2.0, 2.0), LineEq(1.0 / 95.0, 1.9 + 1.5 / 95.0)) == -8.0 / 189.0;
  }

  /** The vertical edge's line is met at x = -4/7, far right of the edge. */
  lemma DownMissesSide(env: Env)
    requires env.eps == 1.0
    ensures !LinesIntersect(env, Down, Side)
  {
    DemoLines();
    assert Crossing(LineEq(2.0, 2.0), LineEq(-0.1, 0.8)) == -4.0 / 7.0;
  }

  /** The three edges of the triangle, in boundary order. */
  lemma TriangleEdges()
    ensures |Triangle.points| == 3
    ensures Edge(Triangle, 0) == Top && Edge(Triangle, 1) == Slant && Edge(Triangle, 2) == Side
  {
  }

  /** Every edge of the triangle has a non-zero slope divisor when EPS = 1. */
  lemma TriangleEdgesOk(env: Env)
    requires env.eps == 1.0
    ensures EdgesOk(env.eps, [Triangle])
  {
    TriangleEdges();
    var polys := [Triangle];
    forall k, i | 0 <= k < |polys| && 0 <= i < |polys[k].points| ensures RunOk(env.eps, Edge(polys[k], i)) {
      assert polys[k] == Triangle;
    }
  }

  /** The sight line from the goal misses every edge. */
  lemma DownIsFree(env: Env)
    requires env.eps == 1.0
    ensures EdgesOk(env.eps, [Triangle]) && RunOk(env.eps, Down)
    ensures SegmentFree(env, [Triangle], Down)
  {
    TriangleEdgesOk(env);
    TriangleEdges();
    var polys := [Triangle];
    forall k, i | 0 <= k < |polys| && 0 <= i < |polys[k].points| ensures !LinesIntersect(env, Down, Edge(polys[k], i)) {
      assert polys[k] == Triangle;
      if i == 0 {
        DownMissesTop(env);
      } else if i == 1 {
        DownMissesSlant(env);
      } else {
        DownMissesSide(env);
      }
    }
  }

  /** The sight line from the start crosses the top edge. */
  lemma UpIsBlocked(env: Env)
    requires env.eps == 1.0
    ensures EdgesOk(env.eps, [Triangle]) && RunOk(env.eps, Up)
    ensures !SegmentFree(env, [Triangle], Up)
  {
    TriangleEdgesOk(env);
    var polys := [Triangle];
    assert Edge(polys[0], 0) == Top;
    UpMeetsTop(env);
  }

  /** With EPS = 1, the sight line from the start is blocked and the one from the goal is free. */
  lemma DemoSightLines(env: Env)
    requires env.eps == 1.0
    ensures EdgesOk(env.eps, [Triangle]) && RunOk(env.eps, Up) && RunOk(env.eps, Down)
    ensures !SegmentFree(env, [Triangle], Up)
    ensures SegmentFree(env, [Triangle], Down)
  {
    UpIsBlocked(env);
    DownIsFree(env);
  }

  /** With EPS = 1, every sight line and edge of the scene has a non-zero slope divisor. */
  lemma DemoLinesOk(env: Env)
    requires env.eps == 1.0
    ensures SightLinesOk(env.eps, Flatten([Triangle]), DemoStart, DemoGoal) && EdgesOk(env.eps, [Triangle])
  {
    FlattenSingle(Triangle);
    TriangleEdgesOk(env);
    var vs := Flatten([Triangle]);
    forall j | 0 <= j < |vs| ensures RunOk(env.eps, Segment(DemoStart, vs[j])) && RunOk(env.eps, Segment(DemoGoal, vs[j])) {
      assert vs[j].x == -10.0 || vs[j].x == -1.5;
    }
  }

  /**
   Assigning this planner's own start back to it changes the matrix: the
   start setter rewrites the start-goal cell from the blocked sight line
   `start -> goal`, where the build left the length of the free `goal -> start`.
   */
  lemma ReassignedStartChangesGraph(env: Env)
    requires env.Valid() && env.eps == 1.0
    ensures SightLinesOk(env.eps, Flatten([Triangle]), DemoStart, DemoGoal) && EdgesOk(env.eps, [Triangle])
    ensures var pl := NewPlanner(env, [Triangle], DemoStart, DemoGoal);
      SetStart(env, pl, DemoStart) != pl
  {
    DemoLinesOk(env);
    DemoSightLines(env);
    ReassignStartUnchangedIff(env, NewPlanner(env, [Triangle], DemoStart, DemoGoal));
  }
}
