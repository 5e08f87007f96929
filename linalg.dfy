/**
 * Dense real matrices as sequences of rows: the numpy arithmetic the error
 * bookkeeping uses (zeros, `+`, outer products, transposes, `dot`), stated
 * exactly over the reals.
 */
module LinAlg {

  type Matrix = seq<seq<real>>

  /** `m` has shape `(rows, cols)`. */
  predicate IsMatrix(m: Matrix, rows: nat, cols: nat) {
    |m| == rows && forall i :: 0 <= i < rows ==> |m[i]| == cols
  }

  /** Two matrices of the same shape with the same entries are equal. */
  lemma MatrixExt(a: Matrix, b: Matrix, rows: nat, cols: nat)
    requires IsMatrix(a, rows, cols) && IsMatrix(b, rows, cols)
    requires forall i, j :: 0 <= i < rows && 0 <= j < cols ==> a[i][j] == b[i][j]
    ensures a == b
  {
    forall i | 0 <= i < rows
      ensures a[i] == b[i]
    {
      assert forall j :: 0 <= j < cols ==> a[i][j] == b[i][j];
    }
  }

  /** `np.zeros((rows, cols))`. */
  function Zero(rows: nat, cols: nat): (z: Matrix)
    ensures IsMatrix(z, rows, cols)
    ensures forall i, j :: 0 <= i < rows && 0 <= j < cols ==> z[i][j] == 0.0
  {
    seq(rows, i => seq(cols, j => 0.0))
  }

  /** `np.eye(n)`. */
  function Identity(n: nat): (e: Matrix)
    ensures IsMatrix(e, n, n)
    ensures forall i, j :: 0 <= i < n && 0 <= j < n ==> e[i][j] == if i == j then 1.0 else 0.0
  {
    seq(n, i => seq(n, j => if i == j then 1.0 else 0.0))
  }

  /** Elementwise sum `a + b` of two matrices of one shape. */
  function Add(a: Matrix, b: Matrix, rows: nat, cols: nat): (c: Matrix)
    requires IsMatrix(a, rows, cols) && IsMatrix(b, rows, cols)
    ensures IsMatrix(c, rows, cols)
    ensures forall i, j :: 0 <= i < rows && 0 <= j < cols ==> c[i][j] == a[i][j] + b[i][j]
  {
    seq(rows, i requires 0 <= i < rows => seq(cols, j requires 0 <= j < cols => a[i][j] + b[i][j]))
  }

  /** The outer product `u ⊗ v`. */
  function Outer(u: seq<real>, v: seq<real>): (m: Matrix)
    ensures IsMatrix(m, |u|, |v|)
    ensures forall i, j :: 0 <= i < |u| && 0 <= j < |v| ==> m[i][j] == u[i] * v[j]
  {
    seq(|u|, i requires 0 <= i < |u| => seq(|v|, j requires 0 <= j < |v| => u[i] * v[j]))
  }

  /** The transpose of a `(rows, cols)` matrix. */
  function Transpose(m: Matrix, rows: nat, cols: nat): (t: Matrix)
    requires IsMatrix(m, rows, cols)
    ensures IsMatrix(t, cols, rows)
    ensures forall i, j :: 0 <= i < cols && 0 <= j < rows ==> t[i][j] == m[j][i]
  {
    seq(cols, i requires 0 <= i < cols => seq(rows, j requires 0 <= j < rows => m[j][i]))
  }

  /** The partial dot product `sum(u[s] * v[s] for s < t)`. */
  function Dot(u: seq<real>, v: seq<real>, t: nat): real
    requires t <= |u| && t <= |v|
  {
    if t == 0 then 0.0 else Dot(u, v, t - 1) + u[t - 1] * v[t - 1]
  }

  /** The partial sum `sum(a[i][s] * b[s][j] for s < t)` of a matrix product entry. */
  function ProductEntry(a: Matrix, b: Matrix, i: nat, j: nat, t: nat): real
    requires i < |a| && t <= |a[i]| && t <= |b|
    requires forall s :: 0 <= s < t ==> j < |b[s]|
  {
    if t == 0 then 0.0 else ProductEntry(a, b, i, j, t - 1) + a[i][t - 1] * b[t - 1][j]
  }

  /** The matrix product `a.dot(b)`. */
  function MatMul(a: Matrix, b: Matrix, rows: nat, inner: nat, cols: nat): (c: Matrix)
    requires IsMatrix(a, rows, inner) && IsMatrix(b, inner, cols)
    ensures IsMatrix(c, rows, cols)
    ensures forall i, j :: 0 <= i < rows && 0 <= j < cols ==> c[i][j] == ProductEntry(a, b, i, j, inner)
  {
    seq(rows, i requires 0 <= i < rows =>
      seq(cols, j requires 0 <= j < cols => ProductEntry(a, b, i, j, inner)))
  }

  /** The matrix-vector product `a.dot(v)`. */
  function MatVec(a: Matrix, v: seq<real>, rows: nat, cols: nat): (w: seq<real>)
    requires IsMatrix(a, rows, cols) && |v| == cols
    ensures |w| == rows
    ensures forall i :: 0 <= i < rows ==> w[i] == Dot(a[i], v, cols)
  {
    seq(rows, i requires 0 <= i < rows => Dot(a[i], v, cols))
  }

  // ---- the Gram matrix G^T G of a design matrix ----------------------------------

  /** `sum(g[s][i] * g[s][j] for s < t)`: the `(i, j)` entry of `G^T G` over the first `t` rows. */
  function ColumnProduct(g: Matrix, n: nat, i: nat, j: nat, t: nat): real
    requires IsMatrix(g, |g|, n) && i < n && j < n && t <= |g|
  {
    if t == 0 then 0.0 else ColumnProduct(g, n, i, j, t - 1) + g[t - 1][i] * g[t - 1][j]
  }

  /** `G^T G` for a design matrix `G` with one row per correlated source and `n` columns. */
  function Gram(g: Matrix, n: nat): (m: Matrix)
    requires IsMatrix(g, |g|, n)
    ensures IsMatrix(m, n, n)
  {
    MatMul(Transpose(g, |g|, n), g, n, |g|, n)
  }

  lemma {:induction false} TransposeProductEntry(g: Matrix, n: nat, i: nat, j: nat, t: nat)
    requires IsMatrix(g, |g|, n) && i < n && j < n && t <= |g|
    ensures ProductEntry(Transpose(g, |g|, n), g, i, j, t) == ColumnProduct(g, n, i, j, t)
  {
    if t > 0 {
      TransposeProductEntry(g, n, i, j, t - 1);
    }
  }

  /** Entry `(i, j)` of `G^T G` is the sum over the rows `k` of `G[k][i] * G[k][j]`. */
  lemma GramEntry(g: Matrix, n: nat, i: nat, j: nat)
    requires IsMatrix(g, |g|, n) && i < n && j < n
    ensures Gram(g, n)[i][j] == ColumnProduct(g, n, i, j, |g|)
  {
    TransposeProductEntry(g, n, i, j, |g|);
  }

  lemma {:induction false} ColumnProductPrefix(g: Matrix, v: seq<real>, n: nat, i: nat, j: nat, t: nat)
    requires IsMatrix(g, |g|, n) && |v| == n && i < n && j < n && t <= |g|
    ensures IsMatrix(g + [v], |g| + 1, n)
    ensures ColumnProduct(g + [v], n, i, j, t) == ColumnProduct(g, n, i, j, t)
  {
    if t > 0 {
      ColumnProductPrefix(g, v, n, i, j, t - 1);
      assert (g + [v])[t - 1] == g[t - 1];
    }
  }

  /** A design matrix without rows contributes the zero matrix. */
  lemma GramEmpty(n: nat)
    ensures Gram([], n) == Zero(n, n)
  {
    forall i, j | 0 <= i < n && 0 <= j < n
      ensures Gram([], n)[i][j] == 0.0
    {
      GramEntry([], n, i, j);
    }
    MatrixExt(Gram([], n), Zero(n, n), n, n);
  }

  /** Appending the row `v` to `G` adds `v ⊗ v` to `G^T G`. */
  lemma GramSnoc(g: Matrix, v: seq<real>, n: nat)
    requires IsMatrix(g, |g|, n) && |v| == n
    ensures IsMatrix(g + [v], |g + [v]|, n)
    ensures Gram(g + [v], n) == Add(Gram(g, n), Outer(v, v), n, n)
  {
    var g' := g + [v];
    assert IsMatrix(g', |g'|, n);
    forall i, j | 0 <= i < n && 0 <= j < n
      ensures Gram(g', n)[i][j] == Gram(g, n)[i][j] + v[i] * v[j]
    {
      GramEntry(g', n, i, j);
      GramEntry(g, n, i, j);
      ColumnProductPrefix(g, v, n, i, j, |g|);
      assert g'[|g|] == v;
    }
    MatrixExt(Gram(g', n), Add(Gram(g, n), Outer(v, v), n, n), n, n);
  }
}
