/**
 The full visibility-graph planner: the vertex enumeration, the static
 obstacle-to-obstacle block of the weight matrix, and the incremental
 rewrites of the start and goal rows when either point moves.

 With `n` obstacle vertices the matrix has `n + 2` rows and columns: index
 `n` is the start, `n + 1` the goal. Only cells below the diagonal are ever
 written; a written cell holds the length of a free sight line or the
 sentinel `NoEdge`.
 */
module Planner {
  import opened Scenes
  import opened Shapes
  import opened Numeric
  import opened Visibility
  import opened Diagonals
  import opened Matrix

  /** The sentinel of a cell whose sight line is blocked. */
  const NoEdge: real := -1.0

  /** The state of a `VisibilityGraphPlanner`; `polygons` stands for `scene.polygons`. */
  datatype VisibilityGraphPlanner = VisibilityGraphPlanner(
    polygons: seq<Polygon>,
    start: Point,
    goal: Point,
    vertices: seq<Point>,
    graph: Grid)
  {
    /** `n_vertices` */
    function N(): nat {
      |vertices|
    }
  }

  /** Every obstacle sight line `v_i -> v_j`, `i > j`, has a non-zero slope divisor. */
  predicate VertexLinesOk(eps: real, vs: seq<Point>) {
    forall i, j :: 0 <= j < i < |vs| ==> RunOk(eps, Segment(vs[i], vs[j]))
  }

  /** Every sight line from `p` to a vertex has a non-zero slope divisor. */
  predicate PointLinesOk(eps: real, vs: seq<Point>, p: Point) {
    forall j :: 0 <= j < |vs| ==> RunOk(eps, Segment(p, vs[j]))
  }

  /**
   The divisions the constructor performs are all defined: the obstacle
   sight lines, the lines from the start and from the goal to every vertex,
   and the start-goal line in both directions.
   */
  predicate SightLinesOk(eps: real, vs: seq<Point>, start: Point, goal: Point) {
    && VertexLinesOk(eps, vs)
    && PointLinesOk(eps, vs, start)
    && PointLinesOk(eps, vs, goal)
    && RunOk(eps, Segment(start, goal))
    && RunOk(eps, Segment(goal, start))
  }

  /**
   What every planner operation relies on: the vertex list is the
   flattening of the polygons, the matrix has its (n + 2) x (n + 2) shape,
   and no sight line or edge makes the source divide by zero.
   */
  ghost predicate Ready(env: Env, pl: VisibilityGraphPlanner) {
    && env.Valid()
    && pl.vertices == Flatten(pl.polygons)
    && IsSquare(pl.graph, pl.N() + 2)
    && SightLinesOk(env.eps, pl.vertices, pl.start, pl.goal)
    && EdgesOk(env.eps, pl.polygons)
  }

  /** The cell for the sight line `a -> b`: its length when free, the sentinel otherwise. */
  function Weight(env: Env, polys: seq<Polygon>, a: Point, b: Point): (w: real)
    requires env.Valid() && RunOk(env.eps, Segment(a, b)) && EdgesOk(env.eps, polys)
    ensures w >= 0.0 <==> SegmentFree(env, polys, Segment(a, b))
    ensures w >= 0.0 ==> w == Len(env, Segment(a, b))
    ensures w < 0.0 ==> w == NoEdge
  {
    var segment := Segment(a, b);
    if SegmentFree(env, polys, segment) then Len(env, segment) else NoEdge
  }

  /**
   What the obstacle block relies on: the vertex list is the flattening of
   the polygons, and no obstacle sight line or polygon edge makes the source
   divide by zero.
   */
  ghost predicate SceneReady(env: Env, polys: seq<Polygon>, vs: seq<Point>) {
    env.Valid() && vs == Flatten(polys) && VertexLinesOk(env.eps, vs) && EdgesOk(env.eps, polys)
  }

  /**
   Vertices `i` and `j` are first found in the same polygon and `i -> j`
   points into that polygon's interior.
   */
  predicate InnerPair(env: Env, polys: seq<Polygon>, vs: seq<Point>, i: nat, j: nat)
    requires SceneReady(env, polys, vs) && j < i < |vs|
  {
    var home := VertexPolygon(polys, vs[i]);
    VertexPolygonFound(polys, vs[i]);
    home == VertexPolygon(polys, vs[j]) && InnerDiagonal(env, vs[i], vs[j], polys[home.value])
  }

  /**
   The value `reset_static_graph` gives obstacle cell `[i][j]`, `i > j`: an
   inner diagonal is no edge whatever the edge scan would say; any other pair
   is an edge exactly when its sight line is free.
   */
  function StaticCell(env: Env, polys: seq<Polygon>, vs: seq<Point>, i: nat, j: nat): (w: real)
    requires SceneReady(env, polys, vs) && j < i < |vs|
    ensures w >= 0.0 <==> !InnerPair(env, polys, vs, i, j) && SegmentFree(env, polys, Segment(vs[i], vs[j]))
    ensures w >= 0.0 ==> w == Len(env, Segment(vs[i], vs[j]))
    ensures w < 0.0 ==> w == NoEdge
  {
    if InnerPair(env, polys, vs, i, j) then NoEdge
    else Weight(env, polys, vs[i], vs[j])
  }

  /**
   The table of static values: cell `[a][b]` of the obstacle block, `b < a`,
   holds `StaticCell`; the cells the loops never write hold 0.
   */
  function StaticValues(env: Env, polys: seq<Polygon>, vs: seq<Point>): (vals: Grid)
    requires SceneReady(env, polys, vs)
    ensures IsSquare(vals, |vs| + 2)
    ensures forall a, b :: 0 <= b < a < |vs| ==> vals[a][b] == StaticCell(env, polys, vs, a, b)
  {
    var m := |vs| + 2;
    seq(m, (a: nat) => seq(m, (b: nat) => if b < a < |vs| then StaticCell(env, polys, vs, a, b) else 0.0))
  }

  /** Cells `[n][0..j)` written one by one, as the loop of `_update_start_edges` does. */
  function StartRowCells(env: Env, pl: VisibilityGraphPlanner, j: nat): (r: Grid)
    requires Ready(env, pl) && j <= pl.N()
    ensures IsSquare(r, pl.N() + 2)
    ensures forall b :: 0 <= b < j ==> r[pl.N()][b] == Weight(env, pl.polygons, pl.start, pl.vertices[b])
    ensures forall a, b :: 0 <= a < pl.N() + 2 && 0 <= b < pl.N() + 2 && (a != pl.N() || b >= j) ==> r[a][b] == pl.graph[a][b]
    decreases j
  {
    if j == 0 then pl.graph
    else
      Write(StartRowCells(env, pl, j - 1), pl.N() + 2, pl.N(), j - 1,
            Weight(env, pl.polygons, pl.start, pl.vertices[j - 1]))
  }

  /**
   `g` is `pl.graph` with the start row `[n][0..n)` and the start-goal cell
   `[n + 1][n]` recomputed for the sight lines leaving `pl.start`, and
   every other cell as it was.
   */
  ghost predicate StartWritten(env: Env, pl: VisibilityGraphPlanner, g: Grid)
    requires Ready(env, pl)
  {
    var n := pl.N();
    && IsSquare(g, n + 2)
    && (forall b :: 0 <= b < n ==> g[n][b] == Weight(env, pl.polygons, pl.start, pl.vertices[b]))
    && g[n + 1][n] == Weight(env, pl.polygons, pl.start, pl.goal)
    && (forall a, b :: 0 <= a < n + 2 && 0 <= b < n + 2 && !(a == n && b < n) && !(a == n + 1 && b == n) ==>
          g[a][b] == pl.graph[a][b])
  }

  /** `_update_start_edges` */
  function UpdateStartEdges(env: Env, pl: VisibilityGraphPlanner): (r: VisibilityGraphPlanner)
    requires Ready(env, pl)
    ensures r == pl.(graph := r.graph)
    ensures Ready(env, r)
    ensures StartWritten(env, pl, r.graph)
  {
    var n := pl.N();
    var g := StartRowCells(env, pl, n);
    pl.(graph := Write(g, n + 2, n + 1, n, Weight(env, pl.polygons, pl.start, pl.goal)))
  }

  /** The points the goal row looks at: every vertex, then the start. */
  function GoalTargets(pl: VisibilityGraphPlanner): seq<Point> {
    pl.vertices + [pl.start]
  }

  /** Cells `[n + 1][0..j)` written one by one, as the loop of `_update_goal_edges` does. */
  function GoalRowCells(env: Env, pl: VisibilityGraphPlanner, j: nat): (r: Grid)
    requires Ready(env, pl) && j <= pl.N() + 1
    ensures IsSquare(r, pl.N() + 2)
    ensures forall b :: 0 <= b < j ==> r[pl.N() + 1][b] == Weight(env, pl.polygons, pl.goal, GoalTargets(pl)[b])
    ensures forall a, b :: 0 <= a < pl.N() + 2 && 0 <= b < pl.N() + 2 && (a != pl.N() + 1 || b >= j) ==> r[a][b] == pl.graph[a][b]
    decreases j
  {
    if j == 0 then pl.graph
    else
      var target := GoalTargets(pl)[j - 1];
      assert RunOk(env.eps, Segment(pl.goal, target)) by {
        if j - 1 < pl.N() {
          assert target == pl.vertices[j - 1];
        }
      }
      Write(GoalRowCells(env, pl, j - 1), pl.N() + 2, pl.N() + 1, j - 1,
            Weight(env, pl.polygons, pl.goal, target))
  }

  /**
   `g` is `pl.graph` with the goal row `[n + 1][0..n]` recomputed for the
   sight lines leaving `pl.goal` (to every vertex and to the start), and
   every other cell as it was.
   */
  ghost predicate GoalWritten(env: Env, pl: VisibilityGraphPlanner, g: Grid)
    requires Ready(env, pl)
  {
    var n := pl.N();
    && IsSquare(g, n + 2)
    && (forall b :: 0 <= b < n ==> g[n + 1][b] == Weight(env, pl.polygons, pl.goal, pl.vertices[b]))
    && g[n + 1][n] == Weight(env, pl.polygons, pl.goal, pl.start)
    && (forall a, b :: 0 <= a < n + 2 && 0 <= b < n + 2 && !(a == n + 1 && b <= n) ==> g[a][b] == pl.graph[a][b])
  }

  /** `_update_goal_edges` */
  function UpdateGoalEdges(env: Env, pl: VisibilityGraphPlanner): (r: VisibilityGraphPlanner)
    requires Ready(env, pl)
    ensures r == pl.(graph := r.graph)
    ensures Ready(env, r)
    ensures GoalWritten(env, pl, r.graph)
  {
    var g := GoalRowCells(env, pl, pl.N() + 1);
    assert forall b :: 0 <= b < pl.N() ==> GoalTargets(pl)[b] == pl.vertices[b];
    assert GoalTargets(pl)[pl.N()] == pl.start;
    pl.(graph := g)
  }

  /** The sight lines a new start `p` brings in have non-zero slope divisors. */
  predicate StartMoveOk(eps: real, pl: VisibilityGraphPlanner, p: Point) {
    SightLinesOk(eps, pl.vertices, p, pl.goal)
  }

  /** The sight lines a new goal `p` brings in have non-zero slope divisors. */
  predicate GoalMoveOk(eps: real, pl: VisibilityGraphPlanner, p: Point) {
    SightLinesOk(eps, pl.vertices, pl.start, p)
  }

  /** The `start` setter: store the point, then rewrite the cells that depend on it. */
  function SetStart(env: Env, pl: VisibilityGraphPlanner, p: Point): (r: VisibilityGraphPlanner)
    requires Ready(env, pl) && StartMoveOk(env.eps, pl, p)
    ensures r == pl.(start := p, graph := r.graph)
    ensures Ready(env, r)
    ensures StartWritten(env, pl.(start := p), r.graph)
  {
    UpdateStartEdges(env, pl.(start := p))
  }

  /** The `goal` setter: store the point, then rewrite the goal row. */
  function SetGoal(env: Env, pl: VisibilityGraphPlanner, p: Point): (r: VisibilityGraphPlanner)
    requires Ready(env, pl) && GoalMoveOk(env.eps, pl, p)
    ensures r == pl.(goal := p, graph := r.graph)
    ensures Ready(env, r)
    ensures GoalWritten(env, pl.(goal := p), r.graph)
  {
    UpdateGoalEdges(env, pl.(goal := p))
  }

  /** The value the full build leaves in cell `[a][b]`. */
  function BuiltCell(env: Env, pl: VisibilityGraphPlanner, a: nat, b: nat): real
    requires Ready(env, pl) && a < pl.N() + 2 && b < pl.N() + 2
  {
    var n := pl.N();
    if a <= b then 0.0
    else if a < n then StaticCell(env, pl.polygons, pl.vertices, a, b)
    else if a == n then Weight(env, pl.polygons, pl.start, pl.vertices[b])
    else if b < n then Weight(env, pl.polygons, pl.goal, pl.vertices[b])
    else Weight(env, pl.polygons, pl.goal, pl.start)
  }

  /** Every cell holds what a full build from the current start and goal gives it. */
  ghost predicate Built(env: Env, pl: VisibilityGraphPlanner)
    requires Ready(env, pl)
  {
    forall a, b :: 0 <= a < pl.N() + 2 && 0 <= b < pl.N() + 2 ==> pl.graph[a][b] == BuiltCell(env, pl, a, b)
  }

  /**
   The first part of `reset_static_graph`: a zero matrix with the obstacle
   block below the diagonal written, and the scene, start and goal kept.
   */
  function StaticBlock(env: Env, pl: VisibilityGraphPlanner): (r: VisibilityGraphPlanner)
    requires Ready(env, pl)
    ensures r == pl.(graph := r.graph)
    ensures Ready(env, r)
    ensures forall a, b :: 0 <= b < a < pl.N() ==> r.graph[a][b] == StaticCell(env, pl.polygons, pl.vertices, a, b)
    ensures forall a, b :: 0 <= a < pl.N() + 2 && 0 <= b < pl.N() + 2 && !(b < a < pl.N()) ==> r.graph[a][b] == 0.0
  {
    var n := pl.N();
    pl.(graph := WriteLower(Zeros(n + 2), StaticValues(env, pl.polygons, pl.vertices), n + 2, n))
  }

  /**
   `reset_static_graph`: a zero matrix, the obstacle block below the
   diagonal, then the start row and the goal row. Cells on and above the
   diagonal stay zero.
   */
  function ResetStaticGraph(env: Env, pl: VisibilityGraphPlanner): (r: VisibilityGraphPlanner)
    requires Ready(env, pl)
    ensures r == pl.(graph := r.graph)
    ensures Ready(env, r)
    ensures Built(env, r)
  {
    UpdateGoalEdges(env, UpdateStartEdges(env, StaticBlock(env, pl)))
  }

  /** The planner constructor: enumerate the vertices and build the whole matrix. */
  function NewPlanner(env: Env, polys: seq<Polygon>, start: Point, goal: Point): (r: VisibilityGraphPlanner)
    requires env.Valid() && SightLinesOk(env.eps, Flatten(polys), start, goal) && EdgesOk(env.eps, polys)
    ensures r.polygons == polys && r.start == start && r.goal == goal
    ensures r.vertices == Flatten(polys) && r.N() == |Flatten(polys)|
    ensures Ready(env, r)
    ensures Built(env, r)
  {
    var vertices := Flatten(polys);
    ResetStaticGraph(env, VisibilityGraphPlanner(polys, start, goal, vertices, Zeros(|vertices| + 2)))
  }
}
