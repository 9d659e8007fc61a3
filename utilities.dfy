/** The shape utilities of Util.java: bias-column augmentation, bias-row
    removal, inclusive-bound extraction, one-hot encoding and the weight
    initialiser.  Sub-matrix and sub-vector selection follow the standard
    definitions with the bounds they need as preconditions. */
module Utilities {
  import opened Matrices

  // ---------------------------------------------------------------
  // Bias column and bias row
  // ---------------------------------------------------------------

  /** The matrix with a leading column of 1.0 prepended. */
  function WithBiasCol(a: Matrix): (r: Matrix)
    requires a.Valid()
    ensures r.HasShape(a.rows, a.cols + 1)
    ensures forall i :: 0 <= i < a.rows ==> r.data[i][0] == 1.0
    ensures forall i, j :: 0 <= i < a.rows && 0 <= j < a.cols ==> r.data[i][j + 1] == a.data[i][j]
  {
    Matrix(a.rows, a.cols + 1, seq(a.rows, i requires 0 <= i < a.rows => [1.0] + a.data[i]))
  }

  /** addBiasCol: fills a fresh rows x (cols + 1) array, column 0 with 1.0
      and column j + 1 with column j of `a`. */
  method AddBiasCol(a: Matrix) returns (r: Matrix)
    requires a.Valid()
    ensures r == WithBiasCol(a)
  {
    var aA2 := new real[a.rows, a.cols + 1];
    var i := 0;
    while i < a.rows
      invariant 0 <= i <= a.rows
      invariant forall k :: 0 <= k < i ==> aA2[k, 0] == 1.0
      invariant forall k, l :: 0 <= k < i && 0 <= l < a.cols ==> aA2[k, l + 1] == a.data[k][l]
    {
      aA2[i, 0] := 1.0;
      var j := 0;
      while j < a.cols
        invariant 0 <= j <= a.cols
        invariant forall k :: 0 <= k <= i ==> aA2[k, 0] == 1.0
        invariant forall k, l :: 0 <= k < i && 0 <= l < a.cols ==> aA2[k, l + 1] == a.data[k][l]
        invariant forall l :: 0 <= l < j ==> aA2[i, l + 1] == a.data[i][l]
      {
        aA2[i, j + 1] := a.data[i][j];
        j := j + 1;
      }
      i := i + 1;
    }
    r := FromArray(aA2);
    forall k, l | 0 <= k < a.rows && 0 <= l < a.cols + 1
      ensures r.data[k][l] == WithBiasCol(a).data[k][l]
    {
      if l > 0 {
        assert aA2[k, (l - 1) + 1] == a.data[k][l - 1];
      }
    }
    Extensionality(r, WithBiasCol(a));
  }

  // ---------------------------------------------------------------
  // Extraction (getSubMatrix / getSubVector, bounds inclusive)
  // ---------------------------------------------------------------

  /** extractRowCol(aM, startRow, endRow, startCol, endCol): rows
      startRow..endRow and columns startCol..endCol, both bounds inclusive. */
  function ExtractRowCol(a: Matrix, startRow: int, endRow: int, startCol: int, endCol: int): (r: Matrix)
    requires a.Valid()
    requires 0 <= startRow <= endRow < a.rows && 0 <= startCol <= endCol < a.cols
    ensures r.HasShape(endRow - startRow + 1, endCol - startCol + 1)
    ensures forall i, j :: 0 <= i < r.rows && 0 <= j < r.cols ==> r.data[i][j] == a.data[startRow + i][startCol + j]
  {
    Matrix(endRow - startRow + 1, endCol - startCol + 1,
      seq(endRow - startRow + 1, i requires 0 <= i < endRow - startRow + 1 =>
        a.data[startRow + i][startCol..endCol + 1]))
  }

  /** removeBias: every row but the first, all columns. */
  function RemoveBias(a: Matrix): (r: Matrix)
    requires a.Valid() && 2 <= a.rows && 1 <= a.cols
    ensures r.HasShape(a.rows - 1, a.cols)
    ensures forall i, j :: 0 <= i < a.rows - 1 && 0 <= j < a.cols ==> r.data[i][j] == a.data[i + 1][j]
  {
    ExtractRowCol(a, 1, a.rows - 1, 0, a.cols - 1)
  }

  /** extractRow(aM, startRow, endRow): rows startRow..endRow, all columns. */
  function ExtractRow(a: Matrix, startRow: int, endRow: int): (r: Matrix)
    requires a.Valid() && 0 <= startRow <= endRow < a.rows && 1 <= a.cols
    ensures r.HasShape(endRow - startRow + 1, a.cols)
    ensures forall i :: 0 <= i < r.rows ==> r.data[i] == a.data[startRow + i]
  {
    var r := ExtractRowCol(a, startRow, endRow, 0, a.cols - 1);
    assert forall i :: 0 <= i < r.rows ==> r.data[i] == a.data[startRow + i];
    r
  }

  /** extractCol(aM, startCol, endCol): all rows, columns startCol..endCol. */
  function ExtractCol(a: Matrix, startCol: int, endCol: int): (r: Matrix)
    requires a.Valid() && 1 <= a.rows && 0 <= startCol <= endCol < a.cols
    ensures r.HasShape(a.rows, endCol - startCol + 1)
    ensures forall i, j :: 0 <= i < a.rows && 0 <= j < r.cols ==> r.data[i][j] == a.data[i][startCol + j]
  {
    ExtractRowCol(a, 0, a.rows - 1, startCol, endCol)
  }

  /** getSubMatrix(int[] rows, int[] cols): the entries at the chosen rows
      and columns, in the order listed; both lists must be non-empty. */
  function Select(a: Matrix, rowIdx: seq<int>, colIdx: seq<int>): (r: Matrix)
    requires a.Valid() && |rowIdx| > 0 && |colIdx| > 0
    requires forall k :: 0 <= k < |rowIdx| ==> 0 <= rowIdx[k] < a.rows
    requires forall k :: 0 <= k < |colIdx| ==> 0 <= colIdx[k] < a.cols
    ensures r.HasShape(|rowIdx|, |colIdx|)
    ensures forall i, j :: 0 <= i < |rowIdx| && 0 <= j < |colIdx| ==> r.data[i][j] == a.data[rowIdx[i]][colIdx[j]]
  {
    Matrix(|rowIdx|, |colIdx|, seq(|rowIdx|, i requires 0 <= i < |rowIdx| =>
      seq(|colIdx|, j requires 0 <= j < |colIdx| => a.data[rowIdx[i]][colIdx[j]])))
  }

  /** The columns listed in `cols`, of every row. */
  function SelectCols(a: Matrix, cols: seq<int>): (r: Matrix)
    requires a.Valid() && 1 <= a.rows && |cols| > 0
    requires forall k :: 0 <= k < |cols| ==> 0 <= cols[k] < a.cols
    ensures r.HasShape(a.rows, |cols|)
    ensures forall i, j :: 0 <= i < a.rows && 0 <= j < |cols| ==> r.data[i][j] == a.data[i][cols[j]]
  {
    Select(a, Range(a.rows), cols)
  }

  /** extractCol(aM, int[] cols): builds the identity row list 0..rows-1 in
      a loop, then selects those rows and the listed columns. */
  method ExtractCols(a: Matrix, cols: seq<int>) returns (r: Matrix)
    requires a.Valid() && 1 <= a.rows && |cols| > 0
    requires forall k :: 0 <= k < |cols| ==> 0 <= cols[k] < a.cols
    ensures r == SelectCols(a, cols)
  {
    var rows := new int[a.rows];
    var i := 0;
    while i < a.rows
      invariant 0 <= i <= a.rows
      invariant forall k :: 0 <= k < i ==> rows[k] == k
    {
      rows[i] := i;
      i := i + 1;
    }
    assert rows[..] == Range(a.rows);
    r := Select(a, rows[..], cols);
  }

  /** extractRowCol(aM, startRow, endRow, int[] cols):
      extractCol(extractRow(aM, startRow, endRow), cols). */
  method ExtractRowCols(a: Matrix, startRow: int, endRow: int, cols: seq<int>) returns (r: Matrix)
    requires a.Valid() && 0 <= startRow <= endRow < a.rows && 1 <= a.cols && |cols| > 0
    requires forall k :: 0 <= k < |cols| ==> 0 <= cols[k] < a.cols
    ensures r == SelectCols(ExtractRow(a, startRow, endRow), cols)
    ensures r.HasShape(endRow - startRow + 1, |cols|)
    ensures forall i, j :: 0 <= i < r.rows && 0 <= j < |cols| ==> r.data[i][j] == a.data[startRow + i][cols[j]]
  {
    r := ExtractCols(ExtractRow(a, startRow, endRow), cols);
  }

  /** RealVector.getSubVector(index, n): the n entries from `index` on. */
  function SubVector(v: Vector, index: int, n: int): (r: Vector)
    requires 0 <= index && 0 <= n && index + n <= |v|
    ensures |r| == n && forall i :: 0 <= i < n ==> r[i] == v[index + i]
  {
    v[index..index + n]
  }

  /** extractRowCol(aM, startRow, endRow, col): rows startRow..endRow of
      column `col`, as a vector. */
  function ExtractRowColVector(a: Matrix, startRow: int, endRow: int, col: int): (r: Vector)
    requires a.Valid() && 0 <= col < a.cols && 0 <= startRow <= endRow < a.rows
    ensures |r| == endRow - startRow + 1
    ensures forall i :: 0 <= i < |r| ==> r[i] == a.data[startRow + i][col]
  {
    SubVector(Col(a, col), startRow, endRow - startRow + 1)
  }

  /** extract(aV, start, end): entries start..end, both inclusive. */
  function Extract(v: Vector, start: int, end: int): (r: Vector)
    requires 0 <= start && start - 1 <= end < |v|
    ensures |r| == end - start + 1
    ensures forall i :: 0 <= i < |r| ==> r[i] == v[start + i]
  {
    SubVector(v, start, end - start + 1)
  }

  // ---------------------------------------------------------------
  // One-hot encoding
  // ---------------------------------------------------------------

  /** Java's (int) cast of a double: truncation toward zero. */
  function Trunc(x: real): (r: int)
    ensures 0.0 <= x ==> 0 <= r && r as real <= x < r as real + 1.0
    ensures x < 0.0 ==> r <= 0 && r as real - 1.0 < x <= r as real
  {
    if x >= 0.0 then x.Floor else -((-x).Floor)
  }

  /** Every label truncates to a class index in [0, classNum). */
  predicate LabelsInRange(v: Vector, classNum: int) {
    forall i :: 0 <= i < |v| ==> 0 <= Trunc(v[i]) < classNum
  }

  /** One row per label: 1.0 in the label's column, 0.0 elsewhere. */
  function OneHotOf(v: Vector, classNum: nat): (r: Matrix)
    requires LabelsInRange(v, classNum)
    ensures r.HasShape(|v|, classNum)
    ensures forall i, j :: 0 <= i < |v| && 0 <= j < classNum ==>
      r.data[i][j] == if j == Trunc(v[i]) then 1.0 else 0.0
  {
    Matrix(|v|, classNum, seq(|v|, i requires 0 <= i < |v| =>
      seq(classNum, j requires 0 <= j < classNum => if j == Trunc(v[i]) then 1.0 else 0.0)))
  }

  /** oneHotEncode(aV, classNum): starts from an all-zero |v| x classNum
      matrix and sets entry (i, (int) v[i]) to 1.0 for every i. */
  method OneHotEncode(v: Vector, classNum: nat) returns (r: Matrix)
    requires LabelsInRange(v, classNum)
    ensures r == OneHotOf(v, classNum)
  {
    var aM := new real[|v|, classNum]((_, _) => 0.0);
    var i := 0;
    while i < |v|
      invariant 0 <= i <= |v|
      invariant forall k, l :: 0 <= k < |v| && 0 <= l < classNum ==>
        aM[k, l] == if k < i && l == Trunc(v[k]) then 1.0 else 0.0
    {
      aM[i, Trunc(v[i])] := 1.0;
      i := i + 1;
    }
    r := FromArray(aM);
    Extensionality(r, OneHotOf(v, classNum));
  }

  /** A one-hot row holds exactly one 1.0, at the label's column, and its
      entries sum to 1. */
  lemma OneHotRowSumsToOne(v: Vector, classNum: nat, i: nat)
    requires LabelsInRange(v, classNum) && i < |v|
    ensures Sum(OneHotOf(v, classNum).data[i]) == 1.0
    ensures forall j :: 0 <= j < classNum && OneHotOf(v, classNum).data[i][j] == 1.0 ==> j == Trunc(v[i])
  {
    var row := OneHotOf(v, classNum).data[i];
    SumOfIndicator(row, Trunc(v[i]));
  }

  /** A vector that is 1.0 at position c and 0.0 elsewhere sums to 1. */
  lemma {:induction false} SumOfIndicator(row: Vector, c: int)
    requires 0 <= c < |row|
    requires forall j :: 0 <= j < |row| ==> row[j] == if j == c then 1.0 else 0.0
    ensures Sum(row) == 1.0
  {
    var init := row[..|row| - 1];
    if c == |row| - 1 {
      SumOfZeros(init);
    } else {
      SumOfIndicator(init, c);
    }
  }

  /** An all-zero vector sums to 0. */
  lemma {:induction false} SumOfZeros(z: Vector)
    requires forall j :: 0 <= j < |z| ==> z[j] == 0.0
    ensures Sum(z) == 0.0
  {
    if |z| > 0 {
      SumOfZeros(z[..|z| - 1]);
    }
  }

  // ---------------------------------------------------------------
  // Weight initialisation
  // ---------------------------------------------------------------

  /** initW(inDim, outDim): a fresh inDim x outDim matrix.  Each entry is a
      Gaussian draw scaled by 1 / sqrt(inDim / 2); the draw is modelled as an
      arbitrary real, so only the shape is determined.  The two loops only
      mirror the source's row-by-row filling order: with every entry
      arbitrary, their invariants have nothing to carry beyond the bounds. */
  method InitW(inDim: nat, outDim: nat) returns (w: Matrix)
    ensures w.HasShape(inDim, outDim)
  {
    var wA2 := new real[inDim, outDim];
    var i := 0;
    while i < inDim
      invariant 0 <= i <= inDim
    {
      var j := 0;
      while j < outDim
        invariant 0 <= j <= outDim
      {
        var gaussian: real :| true;
        wA2[i, j] := gaussian;
        j := j + 1;
      }
      i := i + 1;
    }
    w := FromArray(wA2);
  }

  // ---------------------------------------------------------------
  // Properties
  // ---------------------------------------------------------------

  /** Dropping column 0 of addBiasCol(a) gives back `a`. */
  lemma BiasColRoundTrip(a: Matrix)
    requires a.Valid() && 1 <= a.rows && 1 <= a.cols
    ensures ExtractCol(WithBiasCol(a), 1, a.cols) == a
  {
    Extensionality(ExtractCol(WithBiasCol(a), 1, a.cols), a);
  }
}
