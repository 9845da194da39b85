# Visibility-graph planner: a Dafny model of its geometric core

This project models the geometric core of a Python visibility-graph path
planner. The planner works in a 2-D scene of polygonal obstacles. It builds
a weighted adjacency matrix with one row and column per obstacle vertex,
plus one for the start point and one for the goal point. A cell holds the
Euclidean length of a free sight line, or the sentinel -1 when an obstacle
edge blocks the line. When the start or the goal moves, only the row that
depends on it is recomputed.

The model covers:

- The value types: `Point` with exact coordinate equality, the segment and
  its length, and the polygon constructor with its error cases.
- The polyline helpers `Line.append` and `Loop.is_loop`, and the
  screen-to-orthographic mapping `to_ortho`.
- The visibility predicate. `lines_intersect` is a slope-intercept crossing
  test: it offsets each slope divisor by EPS and widens both x-extents by
  EPS. `is_segment_free` scans every wrapped polygon edge against a sight
  line.
- The polygon lookup `get_vertex_polygon`, and the inner-diagonal angle
  rule `is_inner_diagonal`. That rule unwinds angles by 2π, then checks
  strict betweenness.
- The graph build. `__init__` and `reset_static_graph` write the
  obstacle-to-obstacle block, the start row and the goal row. The `start`
  and `goal` setters write only their own rows.
- The earlier prototype in `polygon_scene.py`: its crossing test, its
  all-zero `get_graph`, and its vertex list. Its `Polygon` constructor
  (`src/polygon_scene.py`, lines 14-21) has the same branches as the one in
  `src/shapes.py` without the vertex count, so `Shapes.NewPolygon` models
  both.

Numerics are exact `real`s. EPS, the square root, arctan2 and π are fields
of the record `Numeric.Env`. Its predicate `Valid` gives the only facts the
proofs use:

- EPS > 0 and π > 0;
- `sqrt(0) = 0`, and `sqrt` is non-negative on non-negative inputs;
- arctan2 lies in (-π, π].

The matrix is a `seq<seq<real>>`. Each Python `for` loop that fills cells is
a recursive function that writes one cell per step. Its contract gives the
value of every cell it wrote, and says that every other cell is unchanged.
The value a cell of the obstacle block receives depends only on the scene,
so the nested loops of `reset_static_graph` copy their values from a table
of `Planner.StaticCell` values with the generic writers `Matrix.WriteRow`
and `Matrix.WriteLower`.

One might expect the start-goal cell `[n + 1][n]` to be a single undirected
entry that always matches the current start and goal. In the code, the start setter computes it from the
sight line `start -> goal`. The goal setter and the full build compute it
from `goal -> start`. The EPS offset moves the line's second endpoint, so
the crossing test depends on direction, and the two computations can
disagree. The model follows the code:

- `PlannerProperties.Consistent` allows either value in that cell.
- `PlannerProperties.SetStartMatchesRebuild` and
  `PlannerProperties.SetStartGoalCellIff` say exactly when an incremental
  start move agrees with a fresh build.
- `PlannerExample.ReassignedStartChangesGraph` gives a concrete scene where
  assigning a planner its own start changes the matrix.

## Model

| member | source | states |
|---|---|---|
| Scenes.Equals | src/scene/scenes.py:15-16 | two points are equal exactly when both coordinates are equal |
| Scenes.Append | src/scene/scenes.py:28-31 | a point equal to the last point leaves the line unchanged; otherwise the old points are kept and the point is added at the end; the point is last afterwards; a line with no repeated neighbours keeps that property |
| Scenes.Capture | src/scene/scenes.py:28-31 | appending a stroke's points one by one gives a line with no repeated neighbours, holding exactly the stroke's points, ending at the stroke's last point, and no longer than the stroke |
| Scenes.CaptureKeepsStutterFree | src/scene/scenes.py:28-31 | a stroke with no repeated neighbours is captured unchanged |
| Scenes.CaptureIdempotent | src/scene/scenes.py:28-31 | capturing a captured line again changes nothing |
| Scenes.IsLoop | src/scene/scenes.py:38-44 | false on an empty line; otherwise true exactly when the flag was set or the last point occurs earlier in the line; the flag is set to the answer; the points are untouched; a set flag is never cleared |
| Scenes.IsLoopIdempotent | src/scene/scenes.py:38-44 | asking twice gives the same answer and the same state |
| Scenes.LoopStaysClosed | src/scene/scenes.py:38-44 | once a loop has closed, it still answers true after any further append |
| Scenes.LoopClosesTwoBack | src/scene/scenes.py:28-44 | on a line built by `append`, a newly found closure returns to a point at least two places back |
| Scenes.ToOrtho | src/scene/scenes.py:89-94 | pixel 0 maps to -1 and the width (height) maps to 1; with a positive size, [0, size] maps into [-1, 1] |
| Scenes.OrthoRoundTrip | src/scene/scenes.py:89-94 | mapping back from the orthographic square recovers the pixel position |
| Scenes.OrthoOnto | src/scene/scenes.py:89-94 | every orthographic point is the image of some pixel position |
| Shapes.Len | src/shapes.py:13-17 | a segment's length is non-negative, and zero when its endpoints are equal |
| Shapes.LenSymmetric | src/shapes.py:13-17 | reversing a segment keeps its length |
| Shapes.PointsOfPairs | src/shapes.py:24-25 | converting coordinate pairs succeeds exactly when every entry is a pair, and gives one point per pair in order; otherwise it fails with the arity error |
| Shapes.NewPolygon | src/shapes.py:20-28 | an empty list fails with the index error; a list of Points is stored unchanged; a list of pairs gives one point per pair in order, or the arity error; any other first entry gives the "not recognised" error; on success the vertex count is the input length |
| Shapes.Flatten | src/planner.py:15-19 | a point is in the vertex list exactly when some polygon holds it |
| Shapes.FlattenAppend | src/planner.py:15-19 | the vertex list of two polygon lists joined is the two vertex lists joined |
| Shapes.FlattenSingle | src/planner.py:15-19 | one polygon contributes exactly its own points, in order |
| Shapes.FlattenIndex | src/planner.py:15-19 | vertex `i` of polygon `k` sits at position (vertices of the earlier polygons) + `i` |
| Lines.ThroughPoint | src/planner.py:83-84 | the line `y = m x + (y0 - m x0)` has slope `m` and passes through the point |
| Lines.Crossing | src/planner.py:86 | `xa` is an abscissa where the two non-parallel lines meet |
| Lines.CrossingUnique | src/planner.py:86 | two non-parallel lines meet at no other abscissa |
| Visibility.OffsetLine | src/planner.py:78-84 | the computed line passes through the first endpoint and through the second endpoint shifted left by EPS |
| Visibility.LinesIntersect | src/planner.py:67-97 | false when the segments share an endpoint or the offset slopes are equal; true exactly when neither holds and the offset lines meet at an abscissa strictly inside both x-extents widened by EPS |
| Visibility.IsSegmentFree | src/planner.py:99-108 | the nested edge scan with early exit answers true exactly when no wrapped edge `(p[i], p[(i + 1) % n])` of any polygon crosses the segment |
| Visibility.VerticalOffsetSlope | src/planner.py:78-84 | the offset line of a vertical segment has slope (height) / EPS |
| Visibility.FlatOffsetLine | src/planner.py:78-84 | the offset line of a horizontal segment is the horizontal line through it |
| Visibility.VerticalCrossingDetected | src/planner.py:78-97 | a vertical segment and a horizontal one that cross strictly inside both are reported as crossing |
| Diagonals.IndexOf | src/planner.py:118 | `list.index` returns the first position holding the point |
| Diagonals.VertexPolygon | src/planner.py:110-114 | the first polygon holding the vertex, or none exactly when no polygon holds it |
| Diagonals.VertexPolygonFound | src/planner.py:110-114 | every scene vertex is found in some polygon |
| Diagonals.Direction | src/planner.py:122-127 | the direction angle lies in (-π, π] |
| Diagonals.Unwind | src/planner.py:128-131 | adding 2π until the angle reaches the anchor ends at or above the anchor and below anchor + 2π; an angle already at or above the anchor is unchanged |
| Diagonals.UnwindKeepsDirection | src/planner.py:128-131 | the unwound angle is the original angle plus a whole number of periods, so it names the same direction |
| Diagonals.UnwindOnce | src/planner.py:128-131 | when one period suffices, the loop adds 2π at most once |
| Diagonals.InnerDiagonal | src/planner.py:116-133 | with the direction to the previous boundary point as anchor, the result is true exactly when the unwound direction to the target lies strictly between the anchor and the unwound direction to the next boundary point |
| Diagonals.BoundaryEdgesNotInner | src/planner.py:116-133 | neither boundary edge at a vertex is an inner diagonal |
| Matrix.Zeros | src/planner.py:21 | an m × m matrix whose cells are all zero |
| Matrix.Write | src/planner.py:149 | one cell takes the new value and every other cell keeps its own |
| Matrix.WriteRow | src/planner.py:141-155 | the inner loop copies cells `[i][0..j)` from the value table, in column order, and changes nothing else |
| Matrix.WriteLower | src/planner.py:138-155 | the outer loop over rows `1..i` copies every cell below the diagonal from the value table and changes nothing else |
| Planner.Weight | src/planner.py:36-40 | a cell is non-negative exactly when the sight line is free; a free line gets its length; a blocked one gets -1 |
| Planner.StaticCell | src/planner.py:144-155 | an obstacle cell is non-negative exactly when the pair is not an inner diagonal of their common polygon and the sight line is free; the inner-diagonal rule wins over the free test; the values are the length or -1 |
| Planner.StaticBlock | src/planner.py:136-155 | after the zero matrix and the nested loops, every obstacle cell below the diagonal holds its static value, every other cell is 0, and the scene, start and goal are unchanged |
| Planner.StartRowCells | src/planner.py:35-40 | cells `[n][0..j)` get the weights of the lines from the start, and nothing else changes |
| Planner.UpdateStartEdges | src/planner.py:33-46 | the start row and cell `[n + 1][n]` get the weights of the lines from the start; every other cell and every field is unchanged |
| Planner.GoalRowCells | src/planner.py:59-64 | cells `[n + 1][0..j)` get the weights of the lines from the goal to the vertices and then to the start, and nothing else changes |
| Planner.UpdateGoalEdges | src/planner.py:57-64 | the goal row `[n + 1][0..n]` gets the weights of the lines from the goal; every other cell and every field is unchanged |
| Planner.SetStart | src/planner.py:28-31 | the new start is stored, the start row and start-goal cell are rewritten for it, and nothing else changes |
| Planner.SetGoal | src/planner.py:52-55 | the new goal is stored, the goal row is rewritten for it, and nothing else changes |
| Planner.ResetStaticGraph | src/planner.py:135-161 | every cell holds its full-build value: 0 on and above the diagonal, the static value in the obstacle block, the start and goal weights in the last two rows |
| Planner.NewPlanner | src/planner.py:10-22 | the vertices are the polygons' points in order, the matrix is (n + 2) × (n + 2), and every cell holds its full-build value |
| PlannerProperties.BuiltIsConsistent | src/planner.py:135-161 | a freshly built matrix satisfies the consistency invariant |
| PlannerProperties.SetStartKeepsConsistent | src/planner.py:28-46 | moving the start keeps the matrix consistent with the new start |
| PlannerProperties.SetGoalRestoresBuilt | src/planner.py:52-64 | moving the goal of a consistent planner leaves every cell at its full-build value |
| PlannerProperties.BuiltIsUnique | src/planner.py:135-161 | two built planners over the same scene, start and goal are equal |
| PlannerProperties.SetGoalMatchesRebuild | src/planner.py:52-64 | moving the goal gives exactly the planner built from scratch with the new goal |
| PlannerProperties.SetStartMatchesRebuild | src/planner.py:28-46 | moving the start of a consistent planner (freshly built, or after any sequence of start and goal moves) gives the rebuilt planner's start row, and every other cell except `[n + 1][n]` |
| PlannerProperties.SetStartGoalCellIff | src/planner.py:28-46 | after a start move, cell `[n + 1][n]` agrees with the rebuilt planner's exactly when the start-goal line is free in both directions or in neither |
| PlannerProperties.ReassignStartUnchangedIff | src/planner.py:28-46 | assigning a built planner its own start leaves it unchanged exactly when the start-goal line is free in both directions or in neither |
| PlannerProperties.BuiltStartGoalCell | src/planner.py:59-64 | a full build fills `[n + 1][n]` from the line `goal -> start` |
| PlannerProperties.StartGoalCell | src/planner.py:42-46 | the two setters' values for the start-goal cell agree exactly when the line's freeness does not depend on its direction |
| PlannerExample.DemoSightLines | src/planner.py:67-108 | with EPS = 1, in a thin-triangle scene, the line from (0, 0) to (0, 2) is blocked while the reverse line is free |
| PlannerExample.ReassignedStartChangesGraph | src/planner.py:28-46 | in that scene, assigning the built planner its own start changes the matrix |
| PolygonScene.FirstSlope | src/polygon_scene.py:66-69 | the true slope of the first segment, or 1e6 when it is vertical |
| PolygonScene.SecondSlope | src/polygon_scene.py:71-74 | the slope of the second segment with 1e-9 added to its run, or 1e6 when that run is zero |
| PolygonScene.LinesIntersect | src/polygon_scene.py:55-91 | false on a shared endpoint; true exactly when there is none, the slopes differ, and the lines meet strictly inside both x-extents, with no widening |
| PolygonScene.VerticalNeverCrosses | src/polygon_scene.py:83-91 | a vertical segment, in either position, is never reported as crossing |
| PolygonScene.MissesAxisCross | src/polygon_scene.py:55-91 | the segments (0,-1)-(0,1) and (-1,0)-(1,0) meet at their midpoints, yet the prototype reports no crossing |
| PolygonScene.PlannerDetectsAxisCross | src/planner.py:67-97 | the planner's test reports those same segments as crossing for every positive EPS other than 2 |
| PolygonScene.NewPrototypePlanner | src/polygon_scene.py:42-53 | the prototype's vertex list holds exactly the polygons' points, and its matrix is n × n and all zero |

## Left out

- Shortest path, `reached_goal` and the reduced planner: they are called elsewhere, but their definitions are not part of this model.
- Rendering and event handling: the `draw` methods, `GLUtils`, `Scene.run`, `SvgScene`, `DrawingScene`, the `DrawingObstacles` event loop and `VisibilityGraphScene` are pygame/OpenGL I/O. `Capture` is the repeated `append` alone: the drawing loop's stop once `is_loop()` holds and its dropping of an unclosed stroke on mouse-up are event handling and are not modelled.
- `src/scene/main.py`, `src/scene/models.py`, `src/driver.py` and `src/main.py`: an HTTP endpoint with threads, an unrelated particle demo, float motion stepping, and argument wiring. None of them is part of this model.
- Floating point: coordinates are exact reals. EPS is any positive real rather than `sys.float_info.epsilon`, and `sqrt` and `arctan2` are only constrained by their ranges. Rounding is not modelled.
- Visibility.LinesIntersect: a zero slope divisor (`x1 - x2 + EPS == 0`) would raise ZeroDivisionError in Python. The model requires non-zero divisors for both segments on every input instead. This also excludes segments that share an endpoint and have a zero divisor, which the source answers False before it divides. The same requirement reaches `SegmentFree`, `IsSegmentFree` and `Weight` through `EdgesOk`.
- Planner.NewPlanner: the ZeroDivisionError path is not modelled. The constructor requires a non-zero divisor for every obstacle pair `v_i -> v_j`, `i > j`, including the inner diagonals that the build skips before dividing. It also requires one for the lines from the start and from the goal, for both directions of the start-goal line (`SightLinesOk`), and for every polygon edge (`EdgesOk`). The same requirement reaches `StaticCell`, `StaticBlock` and `ResetStaticGraph` through `SceneReady` and `Ready`.
- Planner.SetStart: besides the divisors of the new sight lines, it also requires the divisor of the line `goal -> new start`, which this setter never tests. This keeps the planner's invariant, so the goal setter and a rebuild remain defined afterwards.
- Planner.SetGoal: like `SetStart`, it also requires the divisor of the line `start -> new goal`, which this setter never tests (it computes `new goal -> start`), so that the invariant is kept.
- Scenes.ToOrtho: a zero width or height would raise ZeroDivisionError in Python. The model requires a non-zero size instead.
- Shapes.PointsOfPairs: only list entries count as coordinate pairs. Python's `Point(*point)` also accepts any other two-element iterable, such as a tuple, which the model reports as the arity error. The same holds for `Shapes.NewPolygon`, which uses it.
- Shapes.NewPolygon: a list whose first entry is a Point must hold only Points. Python would store other entries unchecked, and the model does not represent such a polygon.
- The demo obstacle polygons hard-coded in `PolygonScene.__init__` and the default start and goal of `VisibilityGraphScene`: they are scene data for the rendering demo.
- `Path` is carried as a plain container (`Shapes.Path`) with no behaviour.
- The prototype's `draw` and its `gfraph` field spelling: `PrototypePlanner` names the field `graph`.

## Findings

| source | as written | input that shows it | evidently intended | confidence | as-written member | corrected member |
|---|---|---|---|---|---|---|
| src/polygon_scene.py:83-91 | the crossing must lie strictly inside each segment's x-extent, which is a single value for a vertical segment, so no vertical segment ever crosses anything | (0,-1)-(0,1) against (-1,0)-(1,0): they cross at (0,0), yet the result is false | vertical sight lines and edges can be blocked; the planner's version widens both extents by EPS | not executed | PolygonScene.MissesAxisCross | Visibility.VerticalCrossingDetected |
