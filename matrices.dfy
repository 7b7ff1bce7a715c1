/** Dense real vectors and matrices, as the fusion engine and the polynomial
    fit use them. The source uses Eigen's VectorXd and MatrixXd; here a vector
    is a sequence of reals and a matrix a sequence of rows. Floating point is
    modelled as exact real arithmetic. */
module Matrices {

  type Vector = seq<real>
  type Matrix = seq<seq<real>>

  /** M has `rows` rows of `cols` entries each. */
  predicate IsMatrix(M: Matrix, rows: nat, cols: nat)
  {
    |M| == rows && forall i :: 0 <= i < rows ==> |M[i]| == cols
  }

  /** The inner product, summed from the last index down. */
  function Dot(u: Vector, v: Vector): real
    requires |u| == |v|
    decreases |u|
  {
    if |u| == 0 then 0.0
    else Dot(u[..|u| - 1], v[..|v| - 1]) + u[|u| - 1] * v[|v| - 1]
  }

  /** The matrix-vector product M * v. */
  function MatVec(M: Matrix, v: Vector): (r: Vector)
    requires forall i :: 0 <= i < |M| ==> |M[i]| == |v|
    ensures |r| == |M|
    ensures forall i :: 0 <= i < |M| ==> r[i] == Dot(M[i], v)
  {
    seq(|M|, i requires 0 <= i < |M| => Dot(M[i], v))
  }

  /** The square matrix with `d` on its diagonal and zeros elsewhere. */
  function Diagonal(d: Vector): (D: Matrix)
    ensures IsMatrix(D, |d|, |d|)
    ensures forall i, j :: 0 <= i < |d| && 0 <= j < |d| ==> D[i][j] == if i == j then d[i] else 0.0
  {
    seq(|d|, i requires 0 <= i < |d| =>
      seq(|d|, j requires 0 <= j < |d| => if i == j then d[i] else 0.0))
  }

  /** The rows-by-cols matrix of zeros. */
  function Zero(rows: nat, cols: nat): (Z: Matrix)
    ensures IsMatrix(Z, rows, cols)
    ensures forall i, j :: 0 <= i < rows && 0 <= j < cols ==> Z[i][j] == 0.0
  {
    seq(rows, i => seq(cols, j => 0.0))
  }

  lemma Dot2(u: Vector, v: Vector)
    requires |u| == |v| == 2
    ensures Dot(u, v) == u[0] * v[0] + u[1] * v[1]
  {
    assert Dot(u[..1], v[..1]) == u[0] * v[0] by {
      assert u[..1][..0] == [] && v[..1][..0] == [];
    }
  }

  lemma Dot4(u: Vector, v: Vector)
    requires |u| == |v| == 4
    ensures Dot(u, v) == u[0] * v[0] + u[1] * v[1] + u[2] * v[2] + u[3] * v[3]
  {
    Dot2(u[..2], v[..2]);
    assert u[..3][..2] == u[..2] && v[..3][..2] == v[..2];
  }
}
