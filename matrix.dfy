/**
 Row/column arithmetic of the day-by-asset price windows: numpy's
 `m[1:]`, `np.diff(m, axis=0)`,
 elementwise maps, elementwise subtraction and the single-column
 extraction `np.reshape(m[:, i], (-1, 1))`.

 A matrix is a sequence of rows, oldest day first; `Rect(m, n)` says that
 every row has `n` columns, as every numpy 2-D array does.
 */
module Matrix {

  type Matrix = seq<seq<real>>

  /** Every row of `m` has exactly `n` columns. */
  predicate Rect(m: Matrix, n: nat) {
    forall k :: 0 <= k < |m| ==> |m[k]| == n
  }

  /** `m[1:]`: everything but the first element; empty stays empty. */
  function Tail(m: Matrix): (r: Matrix)
    ensures |m| > 0 ==> |r| == |m| - 1
    ensures |m| == 0 ==> r == []
    ensures forall k :: 0 <= k < |r| ==> r[k] == m[k + 1]
  {
    if |m| == 0 then [] else m[1..]
  }

  /** Elementwise `a - b` of two rows of equal length. */
  function RowSub(a: seq<real>, b: seq<real>): (r: seq<real>)
    requires |a| == |b|
    ensures |r| == |a|
    ensures forall j :: 0 <= j < |r| ==> r[j] == a[j] - b[j]
  {
    seq(|a|, j requires 0 <= j < |a| => a[j] - b[j])
  }

  /**
   `np.diff(m, axis=0)`: row k of the result is row k + 1 minus row k, so a
   matrix of R rows gives R - 1 rows (none when `m` is empty).
   */
  function Diff(m: Matrix, n: nat): (r: Matrix)
    requires Rect(m, n)
    ensures Rect(r, n)
    ensures |m| > 0 ==> |r| == |m| - 1
    ensures |m| == 0 ==> r == []
    ensures forall k, j :: 0 <= k < |r| && 0 <= j < n ==> r[k][j] == m[k + 1][j] - m[k][j]
    decreases |m|
  {
    if |m| < 2 then [] else [RowSub(m[1], m[0])] + Diff(m[1..], n)
  }

  /** A function applied to every element of a row. */
  function MapRow(row: seq<real>, f: real -> real): (r: seq<real>)
    ensures |r| == |row|
    ensures forall j :: 0 <= j < |r| ==> r[j] == f(row[j])
  {
    seq(|row|, j requires 0 <= j < |row| => f(row[j]))
  }

  /** A function applied to every element of a matrix (numpy's ufuncs and scalar arithmetic). */
  function MapM(m: Matrix, f: real -> real): (r: Matrix)
    ensures |r| == |m|
    ensures forall k :: 0 <= k < |r| ==> |r[k]| == |m[k]|
    ensures forall k, j :: 0 <= k < |r| && 0 <= j < |r[k]| ==> r[k][j] == f(m[k][j])
  {
    seq(|m|, k requires 0 <= k < |m| => MapRow(m[k], f))
  }

  /** Elementwise `a - b` of two matrices of the same shape. */
  function SubM(a: Matrix, b: Matrix, n: nat): (r: Matrix)
    requires |a| == |b| && Rect(a, n) && Rect(b, n)
    ensures |r| == |a| && Rect(r, n)
    ensures forall k, j :: 0 <= k < |r| && 0 <= j < n ==> r[k][j] == a[k][j] - b[k][j]
  {
    seq(|a|, k requires 0 <= k < |a| => RowSub(a[k], b[k]))
  }

  /** `np.reshape(m[:, i], (-1, 1))`: column `i` as a one-column matrix. */
  function Column(m: Matrix, i: nat): (r: Matrix)
    requires forall k :: 0 <= k < |m| ==> i < |m[k]|
    ensures |r| == |m| && Rect(r, 1)
    ensures forall k :: 0 <= k < |r| ==> r[k] == [m[k][i]]
  {
    seq(|m|, k requires 0 <= k < |m| => [m[k][i]])
  }
}
