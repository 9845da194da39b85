/** The planner's dense weight matrix (a numpy array in the source) as nested sequences. */
module Matrix {

  type Grid = seq<seq<real>>

  /** `g` has `m` rows of `m` cells each. */
  predicate IsSquare(g: Grid, m: nat) {
    |g| == m && forall i :: 0 <= i < m ==> |g[i]| == m
  }

  /** `np.zeros((m, m))` */
  function Zeros(m: nat): (g: Grid)
    ensures IsSquare(g, m)
    ensures forall i, j :: 0 <= i < m && 0 <= j < m ==> g[i][j] == 0.0
  {
    seq(m, _ => seq(m, _ => 0.0))
  }

  /** `g[i][j] = v`: one cell takes the new value, every other cell keeps its own. */
  function Write(g: Grid, m: nat, i: nat, j: nat, v: real): (r: Grid)
    requires IsSquare(g, m) && i < m && j < m
    ensures IsSquare(r, m)
    ensures r[i][j] == v
    ensures forall a, b :: 0 <= a < m && 0 <= b < m && (a != i || b != j) ==> r[a][b] == g[a][b]
  {
    g[i := g[i][j := v]]
  }

  /**
   Cells `[i][0..j)` copied from the table `vals` one by one, in column
   order, as a loop `for j in range(...)` writing row `i` does.
   */
  function WriteRow(g: Grid, vals: Grid, m: nat, i: nat, j: nat): (r: Grid)
    requires IsSquare(g, m) && IsSquare(vals, m) && i < m && j <= m
    ensures IsSquare(r, m)
    ensures forall b :: 0 <= b < j ==> r[i][b] == vals[i][b]
    ensures forall a, b :: 0 <= a < m && 0 <= b < m && (a != i || b >= j) ==> r[a][b] == g[a][b]
    decreases j
  {
    if j == 0 then g
    else Write(WriteRow(g, vals, m, i, j - 1), m, i, j - 1, vals[i][j - 1])
  }

  /**
   Every cell `[a][b]` with `b < a < i` copied from `vals`, row by row, as
   the nested loops `for a in range(1, i): for b in range(a)` do.
   */
  function WriteLower(g: Grid, vals: Grid, m: nat, i: nat): (r: Grid)
    requires IsSquare(g, m) && IsSquare(vals, m) && i <= m
    ensures IsSquare(r, m)
    ensures forall a, b :: 0 <= b < a < i ==> r[a][b] == vals[a][b]
    ensures forall a, b :: 0 <= a < m && 0 <= b < m && !(b < a < i) ==> r[a][b] == g[a][b]
    decreases i
  {
    if i <= 1 then g
    else WriteRow(WriteLower(g, vals, m, i - 1), vals, m, i - 1, i - 1)
  }

  /** Two square grids with the same cells are the same grid. */
  lemma SameCells(g: Grid, h: Grid, m: nat)
    requires IsSquare(g, m) && IsSquare(h, m)
    requires forall a, b :: 0 <= a < m && 0 <= b < m ==> g[a][b] == h[a][b]
    ensures g == h
  {
    forall a | 0 <= a < m ensures g[a] == h[a] {
      assert forall b :: 0 <= b < m ==> g[a][b] == h[a][b];
    }
  }
}
