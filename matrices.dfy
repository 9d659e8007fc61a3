/** Dense real matrices and vectors, and the single-expression kernel
    wrappers of Util.java (add, sub, scalar mult, div, dot, t).  Java's
    double is abstracted by exact `real` arithmetic. */
module Matrices {

  type Vector = seq<real>

  /** A `rows` x `cols` matrix stored row by row. */
  datatype Matrix = Matrix(rows: nat, cols: nat, data: seq<seq<real>>)
  {
    /** There are `rows` rows and each holds exactly `cols` entries. */
    predicate Valid() {
      |data| == rows && forall i :: 0 <= i < |data| ==> |data[i]| == cols
    }

    predicate HasShape(r: nat, c: nat) {
      Valid() && rows == r && cols == c
    }
  }

  /** The sequence 0, 1, ..., n - 1. */
  function Range(n: nat): (s: seq<int>)
    ensures |s| == n && forall i :: 0 <= i < n ==> s[i] == i
  {
    seq(n, i => i)
  }

  /** MatrixUtils.createRealMatrix(r, c): an all-zero matrix. */
  function Zeros(r: nat, c: nat): (z: Matrix)
    ensures z.HasShape(r, c)
    ensures forall i, j :: 0 <= i < r && 0 <= j < c ==> z.data[i][j] == 0.0
  {
    Matrix(r, c, seq(r, _ => seq(c, _ => 0.0)))
  }

  /** Every entry of `v` is at least zero, checked from the back. */
  predicate NonNegative(v: Vector) {
    |v| == 0 || (v[|v| - 1] >= 0.0 && NonNegative(v[..|v| - 1]))
  }

  /** Every entry of `v` is zero, checked from the back. */
  predicate AllZero(v: Vector) {
    |v| == 0 || (v[|v| - 1] == 0.0 && AllZero(v[..|v| - 1]))
  }

  lemma {:induction false} NonNegativeOfEntries(v: Vector)
    requires forall k :: 0 <= k < |v| ==> v[k] >= 0.0
    ensures NonNegative(v)
  {
    if |v| > 0 {
      NonNegativeOfEntries(v[..|v| - 1]);
    }
  }

  lemma {:induction false} AllZeroOfEntries(v: Vector)
    requires forall k :: 0 <= k < |v| ==> v[k] == 0.0
    ensures AllZero(v)
  {
    if |v| > 0 {
      AllZeroOfEntries(v[..|v| - 1]);
    }
  }

  /** Sum of a vector, accumulated from the front as the source's loops do;
      a sum of non-negative entries is non-negative. */
  function Sum(v: Vector): (s: real)
    ensures NonNegative(v) ==> s >= 0.0
  {
    if |v| == 0 then 0.0 else Sum(v[..|v| - 1]) + v[|v| - 1]
  }

  /** Inner product of two vectors of equal length, accumulated from the
      front; it vanishes when the second vector is all zeros. */
  function Inner(u: Vector, v: Vector): (r: real)
    requires |u| == |v|
    ensures AllZero(v) ==> r == 0.0
  {
    if |u| == 0 then 0.0 else Inner(u[..|u| - 1], v[..|v| - 1]) + u[|u| - 1] * v[|v| - 1]
  }

  /** Column `j` of `a` (RealMatrix.getColumnVector). */
  function Col(a: Matrix, j: nat): (c: Vector)
    requires a.Valid() && j < a.cols
    ensures |c| == a.rows && forall k :: 0 <= k < a.rows ==> c[k] == a.data[k][j]
  {
    seq(a.rows, k requires 0 <= k < a.rows => a.data[k][j])
  }

  /** MatrixUtils.createRealMatrix(double[][]): the matrix holding the
      entries of a two-dimensional array. */
  function FromArray(arr: array2<real>): (r: Matrix)
    reads arr
    ensures r.HasShape(arr.Length0, arr.Length1)
    ensures forall i, j :: 0 <= i < arr.Length0 && 0 <= j < arr.Length1 ==> r.data[i][j] == arr[i, j]
  {
    Matrix(arr.Length0, arr.Length1, seq(arr.Length0, i requires 0 <= i < arr.Length0 reads arr =>
      seq(arr.Length1, j requires 0 <= j < arr.Length1 reads arr => arr[i, j])))
  }

  /** RealMatrix.getData(): a fresh array copy of the entries. */
  method GetData(a: Matrix) returns (arr: array2<real>)
    requires a.Valid()
    ensures fresh(arr) && arr.Length0 == a.rows && arr.Length1 == a.cols
    ensures FromArray(arr) == a
  {
    arr := new real[a.rows, a.cols]((i, j) requires 0 <= i < a.rows && 0 <= j < a.cols => a.data[i][j]);
    Extensionality(FromArray(arr), a);
  }

  // ---------------------------------------------------------------
  // Matrix kernel (Util.java "Math Functions", single expressions)
  // ---------------------------------------------------------------

  /** add(RealMatrix, RealMatrix): entrywise sum of equally shaped matrices. */
  function Add(a: Matrix, b: Matrix): (r: Matrix)
    requires a.Valid() && b.HasShape(a.rows, a.cols)
    ensures r.HasShape(a.rows, a.cols)
    ensures forall i, j :: 0 <= i < a.rows && 0 <= j < a.cols ==> r.data[i][j] == a.data[i][j] + b.data[i][j]
  {
    Matrix(a.rows, a.cols, seq(a.rows, i requires 0 <= i < a.rows =>
      seq(a.cols, j requires 0 <= j < a.cols => a.data[i][j] + b.data[i][j])))
  }

  /** add(RealMatrix, double): adds `b` to every entry (scalarAdd). */
  function AddScalar(a: Matrix, b: real): (r: Matrix)
    requires a.Valid()
    ensures r.HasShape(a.rows, a.cols)
    ensures forall i, j :: 0 <= i < a.rows && 0 <= j < a.cols ==> r.data[i][j] == a.data[i][j] + b
  {
    Matrix(a.rows, a.cols, seq(a.rows, i requires 0 <= i < a.rows =>
      seq(a.cols, j requires 0 <= j < a.cols => a.data[i][j] + b)))
  }

  /** sub(RealMatrix, RealMatrix): entrywise difference of equally shaped matrices. */
  function Sub(a: Matrix, b: Matrix): (r: Matrix)
    requires a.Valid() && b.HasShape(a.rows, a.cols)
    ensures r.HasShape(a.rows, a.cols)
    ensures forall i, j :: 0 <= i < a.rows && 0 <= j < a.cols ==> r.data[i][j] == a.data[i][j] - b.data[i][j]
  {
    Matrix(a.rows, a.cols, seq(a.rows, i requires 0 <= i < a.rows =>
      seq(a.cols, j requires 0 <= j < a.cols => a.data[i][j] - b.data[i][j])))
  }

  /** mult(RealMatrix, double): scalarMultiply. */
  function Scale(a: Matrix, b: real): (r: Matrix)
    requires a.Valid()
    ensures r.HasShape(a.rows, a.cols)
    ensures forall i, j :: 0 <= i < a.rows && 0 <= j < a.cols ==> r.data[i][j] == a.data[i][j] * b
  {
    Matrix(a.rows, a.cols, seq(a.rows, i requires 0 <= i < a.rows =>
      seq(a.cols, j requires 0 <= j < a.cols => a.data[i][j] * b)))
  }

  /** div(RealMatrix, double): scalarMultiply(1 / b).  Java yields Infinity
      for b == 0; exact reals need b != 0. */
  function Div(a: Matrix, b: real): (r: Matrix)
    requires a.Valid() && b != 0.0
    ensures r.HasShape(a.rows, a.cols)
    ensures forall i, j :: 0 <= i < a.rows && 0 <= j < a.cols ==> r.data[i][j] == a.data[i][j] / b
  {
    Scale(a, 1.0 / b)
  }

  /** dot(RealMatrix, RealMatrix): the standard product of an m x k and a
      k x n matrix, an m x n matrix. */
  function Dot(a: Matrix, b: Matrix): (r: Matrix)
    requires a.Valid() && b.Valid() && a.cols == b.rows
    ensures r.HasShape(a.rows, b.cols)
    ensures forall i, j :: 0 <= i < a.rows && 0 <= j < b.cols ==> r.data[i][j] == Inner(a.data[i], Col(b, j))
  {
    Matrix(a.rows, b.cols, seq(a.rows, i requires 0 <= i < a.rows =>
      seq(b.cols, j requires 0 <= j < b.cols => Inner(a.data[i], Col(b, j)))))
  }

  /** t(RealMatrix): the transpose, a fresh cols x rows matrix. */
  function T(a: Matrix): (r: Matrix)
    requires a.Valid()
    ensures r.HasShape(a.cols, a.rows)
    ensures forall i, j :: 0 <= i < a.cols && 0 <= j < a.rows ==> r.data[i][j] == a.data[j][i]
  {
    Matrix(a.cols, a.rows, seq(a.cols, i requires 0 <= i < a.cols => Col(a, i)))
  }

  // ---------------------------------------------------------------
  // Vector kernel
  // ---------------------------------------------------------------

  /** MatrixUtils.createRealVector(new double[n]). */
  function ZeroVector(n: nat): (v: Vector)
    ensures |v| == n && forall i :: 0 <= i < n ==> v[i] == 0.0
  {
    seq(n, _ => 0.0)
  }

  /** add(RealVector, double): mapAdd. */
  function AddScalarV(v: Vector, b: real): (r: Vector)
    ensures |r| == |v| && forall i :: 0 <= i < |v| ==> r[i] == v[i] + b
  {
    seq(|v|, i requires 0 <= i < |v| => v[i] + b)
  }

  /** sub(RealVector, RealVector): subtract, for vectors of equal length. */
  function SubV(u: Vector, v: Vector): (r: Vector)
    requires |u| == |v|
    ensures |r| == |u| && forall i :: 0 <= i < |u| ==> r[i] == u[i] - v[i]
  {
    seq(|u|, i requires 0 <= i < |u| => u[i] - v[i])
  }

  /** mult(RealVector, double): mapMultiply. */
  function ScaleV(v: Vector, b: real): (r: Vector)
    ensures |r| == |v| && forall i :: 0 <= i < |v| ==> r[i] == v[i] * b
  {
    seq(|v|, i requires 0 <= i < |v| => v[i] * b)
  }

  /** div(RealVector, double): mapMultiply(1 / b). */
  function DivV(v: Vector, b: real): (r: Vector)
    requires b != 0.0
    ensures |r| == |v| && forall i :: 0 <= i < |v| ==> r[i] == v[i] / b
  {
    ScaleV(v, 1.0 / b)
  }

  /** dot(RealMatrix, RealVector): operate, the matrix as a linear map. */
  function Operate(a: Matrix, v: Vector): (r: Vector)
    requires a.Valid() && a.cols == |v|
    ensures |r| == a.rows && forall i :: 0 <= i < a.rows ==> r[i] == Inner(a.data[i], v)
  {
    seq(a.rows, i requires 0 <= i < a.rows => Inner(a.data[i], v))
  }

  // ---------------------------------------------------------------
  // Algebraic properties of the kernel
  // ---------------------------------------------------------------

  /** Two valid matrices with the same shape and entries are equal. */
  lemma Extensionality(a: Matrix, b: Matrix)
    requires a.Valid() && b.HasShape(a.rows, a.cols)
    requires forall i, j :: 0 <= i < a.rows && 0 <= j < a.cols ==> a.data[i][j] == b.data[i][j]
    ensures a == b
  {
    forall i | 0 <= i < a.rows
      ensures a.data[i] == b.data[i]
    {
    }
  }

  /** Transposing twice gives back the original matrix. */
  lemma TransposeInvolution(a: Matrix)
    requires a.Valid()
    ensures T(T(a)) == a
  {
    Extensionality(T(T(a)), a);
  }

  /** The inner product is symmetric. */
  lemma {:induction false} InnerSymmetric(u: Vector, v: Vector)
    requires |u| == |v|
    ensures Inner(u, v) == Inner(v, u)
  {
    if |u| > 0 {
      InnerSymmetric(u[..|u| - 1], v[..|v| - 1]);
    }
  }

  /** (a b)^t == b^t a^t. */
  lemma DotTranspose(a: Matrix, b: Matrix)
    requires a.Valid() && b.Valid() && a.cols == b.rows
    ensures T(Dot(a, b)) == Dot(T(b), T(a))
  {
    var l, r := T(Dot(a, b)), Dot(T(b), T(a));
    forall i, j | 0 <= i < b.cols && 0 <= j < a.rows
      ensures l.data[i][j] == r.data[i][j]
    {
      assert T(b).data[i] == Col(b, i);
      assert Col(T(a), j) == a.data[j];
      InnerSymmetric(a.data[j], Col(b, i));
    }
    Extensionality(l, r);
  }

  /** Subtracting then adding back the same matrix is the identity. */
  lemma SubAddCancel(a: Matrix, b: Matrix)
    requires a.Valid() && b.HasShape(a.rows, a.cols)
    ensures Add(Sub(a, b), b) == a
  {
    Extensionality(Add(Sub(a, b), b), a);
  }
}
