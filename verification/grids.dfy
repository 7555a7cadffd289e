/**
 * The boards of every client are Python lists of lists that the code writes
 * cell by cell; here a board is a sequence of rows, and one cell assignment
 * `board[r][c] = v` is `Write`.
 */
module Grids {

  /** `g` has `rows` rows of `cols` cells each. */
  predicate Shaped<T>(g: seq<seq<T>>, rows: nat, cols: nat) {
    |g| == rows && forall r :: 0 <= r < rows ==> |g[r]| == cols
  }

  /** Two grids of one shape that agree cell by cell are equal. */
  lemma GridExt<T>(g: seq<seq<T>>, h: seq<seq<T>>, rows: nat, cols: nat)
    requires Shaped(g, rows, cols) && Shaped(h, rows, cols)
    requires forall r, c :: 0 <= r < rows && 0 <= c < cols ==> g[r][c] == h[r][c]
    ensures g == h
  {
    forall r | 0 <= r < rows ensures g[r] == h[r] {
      assert forall c :: 0 <= c < cols ==> g[r][c] == h[r][c];
    }
  }

  /** A `rows` x `cols` grid holding `v` in every cell. */
  function Filled<T>(rows: nat, cols: nat, v: T): (g: seq<seq<T>>)
    ensures Shaped(g, rows, cols)
    ensures forall r, c :: 0 <= r < rows && 0 <= c < cols ==> g[r][c] == v
  {
    seq(rows, _ => seq(cols, _ => v))
  }

  /** `g` with the cell at row `r`, column `c` replaced by `v`. */
  function Write<T>(g: seq<seq<T>>, r: nat, c: nat, v: T): (h: seq<seq<T>>)
    requires r < |g| && c < |g[r]|
    ensures |h| == |g| && forall i :: 0 <= i < |g| ==> |h[i]| == |g[i]|
    ensures h[r][c] == v
    ensures forall i, j :: 0 <= i < |g| && 0 <= j < |g[i]| && (i != r || j != c) ==> h[i][j] == g[i][j]
  {
    g[r := g[r][c := v]]
  }
}
