/** The two calcAccuracy overloads of Util.java: a 0.5 threshold for one
    output per row, and an arg-max comparison against a one-hot target
    row for many outputs per row.  Both divide a hit count by the number
    of rows, which Java turns into NaN for an empty input; the model asks
    for at least one row. */
module Accuracy {
  import opened Matrices
  import opened Utilities

  // ---------------------------------------------------------------
  // Threshold accuracy (calcAccuracy(RealVector, RealVector))
  // ---------------------------------------------------------------

  /** A single prediction counts when p <= 0.5 with target 0, or p > 0.5
      with target 1. */
  predicate BinaryHit(t: real, p: real) {
    if p <= 0.5 then t == 0.0 else t == 1.0
  }

  /** The number of positions where the prediction counts. */
  function BinaryHits(t: Vector, p: Vector): (n: nat)
    requires |t| == |p|
    ensures n <= |t|
  {
    if |t| == 0 then 0
    else BinaryHits(t[..|t| - 1], p[..|p| - 1]) + (if BinaryHit(t[|t| - 1], p[|p| - 1]) then 1 else 0)
  }

  /** The fraction of the |t| targets that the predictions get right; the
      source reads only the first |t| predictions. */
  function BinaryAccuracy(t: Vector, p: Vector): (acc: real)
    requires 0 < |t| <= |p|
    ensures 0.0 <= acc <= 1.0
  {
    var hits := BinaryHits(t, p[..|t|]);
    UnitRatio(hits, |t|);
    hits as real / |t| as real
  }

  /** calcAccuracy(tV, pV): one pass counting the hits, then a division. */
  method CalcAccuracyV(t: Vector, p: Vector) returns (acc: real)
    requires 0 < |t| <= |p|
    ensures acc == BinaryAccuracy(t, p)
  {
    var sum := 0.0;
    var i := 0;
    while i < |t|
      invariant 0 <= i <= |t|
      invariant sum == BinaryHits(t[..i], p[..i]) as real
    {
      assert t[..i + 1][..i] == t[..i] && p[..i + 1][..i] == p[..i];
      if p[i] <= 0.5 {
        if t[i] == 0.0 {
          sum := sum + 1.0;
        }
      } else {
        if t[i] == 1.0 {
          sum := sum + 1.0;
        }
      }
      i := i + 1;
    }
    assert t[..|t|] == t && p[..|t|][..|t|] == p[..|t|];
    acc := sum / |t| as real;
  }

  // ---------------------------------------------------------------
  // Arg-max accuracy (calcAccuracy(RealMatrix, RealMatrix))
  // ---------------------------------------------------------------

  /** The value held in `max` after the source's scan of a row: it starts
      at 0.0 and moves to every entry strictly larger than it. */
  function Best(row: Vector): (m: real)
    ensures m >= 0.0 && forall k :: 0 <= k < |row| ==> row[k] <= m
    ensures m == 0.0 || exists k :: 0 <= k < |row| && row[k] == m
  {
    if |row| == 0 then 0.0
    else if row[|row| - 1] > Best(row[..|row| - 1]) then row[|row| - 1]
    else Best(row[..|row| - 1])
  }

  /** The value held in `maxIndex` after the same scan. */
  function Picked(row: Vector): (j: nat)
    ensures |row| > 0 ==> j < |row|
    ensures Best(row) == 0.0 ==> j == 0
    ensures Best(row) > 0.0 ==> j < |row| && row[j] == Best(row) && forall k :: 0 <= k < j ==> row[k] < Best(row)
  {
    if |row| == 0 then 0
    else if row[|row| - 1] > Best(row[..|row| - 1]) then |row| - 1
    else Picked(row[..|row| - 1])
  }

  /** Reference definition of the chosen column, independent of the scan:
      column 0 when no entry is positive, otherwise the first column that
      holds the maximum. */
  predicate IsFirstMax(row: Vector, j: int) {
    if forall k :: 0 <= k < |row| ==> row[k] <= 0.0 then j == 0
    else
      0 <= j < |row| && (forall k :: 0 <= k < |row| ==> row[k] <= row[j]) &&
      (forall k :: 0 <= k < j ==> row[k] < row[j])
  }

  /** Row i counts when the target is 1.0 at the column picked from the
      first t.cols predictions of that row. */
  predicate RowHit(t: Matrix, p: Matrix, i: nat)
    requires t.Valid() && p.Valid() && i < t.rows <= p.rows && 0 < t.cols <= p.cols
  {
    t.data[i][Picked(p.data[i][..t.cols])] == 1.0
  }

  /** The number of hits among the first n rows. */
  function ArgMaxHits(t: Matrix, p: Matrix, n: nat): (h: nat)
    requires t.Valid() && p.Valid() && n <= t.rows <= p.rows && 0 < t.cols <= p.cols
    ensures h <= n
  {
    if n == 0 then 0
    else ArgMaxHits(t, p, n - 1) + (if RowHit(t, p, n - 1) then 1 else 0)
  }

  /** The fraction of rows whose picked prediction column is a target 1.0. */
  function CategoricalAccuracy(t: Matrix, p: Matrix): (acc: real)
    requires t.Valid() && p.Valid() && 0 < t.rows <= p.rows && 0 < t.cols <= p.cols
    ensures 0.0 <= acc <= 1.0
  {
    var hits := ArgMaxHits(t, p, t.rows);
    UnitRatio(hits, t.rows);
    hits as real / t.rows as real
  }

  /** The inner loop of calcAccuracy(tM, pM): scans the first n entries
      of a prediction row, keeping the first strict maximum above 0.0. */
  method ScanRow(row: Vector, n: nat) returns (maxIndex: nat)
    requires 0 < n <= |row|
    ensures maxIndex == Picked(row[..n]) && maxIndex < n
  {
    maxIndex := 0;
    var max := 0.0;
    var j := 0;
    while j < n
      invariant 0 <= j <= n
      invariant maxIndex == Picked(row[..j]) && max == Best(row[..j])
    {
      assert row[..j + 1][..j] == row[..j];
      if row[j] > max {
        maxIndex := j;
        max := row[j];
      }
      j := j + 1;
    }
  }

  /** calcAccuracy(tM, pM): for each row, scan for the first strict
      maximum above 0.0 and test the target there. */
  method CalcAccuracy(t: Matrix, p: Matrix) returns (acc: real)
    requires t.Valid() && p.Valid() && 0 < t.rows <= p.rows && 0 < t.cols <= p.cols
    ensures acc == CategoricalAccuracy(t, p)
  {
    var ans := 0.0;
    var i := 0;
    while i < t.rows
      invariant 0 <= i <= t.rows
      invariant ans == ArgMaxHits(t, p, i) as real
    {
      var maxIndex := ScanRow(p.data[i], t.cols);
      if t.data[i][maxIndex] == 1.0 {
        ans := ans + 1.0;
      }
      i := i + 1;
    }
    acc := ans / t.rows as real;
  }

  // ---------------------------------------------------------------
  // Properties
  // ---------------------------------------------------------------

  /** A count of at most n out of n is a fraction in [0, 1]. */
  lemma UnitRatio(h: nat, n: nat)
    requires 0 < n && h <= n
    ensures 0.0 <= h as real / n as real <= 1.0
  {
    assert h as real <= n as real;
  }

  /** The threshold accuracy is 1 exactly when every prediction counts. */
  lemma {:induction false} BinaryHitsAll(t: Vector, p: Vector)
    requires |t| == |p|
    ensures BinaryHits(t, p) == |t| <==> forall i :: 0 <= i < |t| ==> BinaryHit(t[i], p[i])
  {
    if |t| > 0 {
      var n := |t| - 1;
      BinaryHitsAll(t[..n], p[..n]);
      if BinaryHits(t, p) == |t| {
        forall i | 0 <= i < |t|
          ensures BinaryHit(t[i], p[i])
        {
          if i < n {
            assert t[..n][i] == t[i] && p[..n][i] == p[i];
          }
        }
      }
      if forall i :: 0 <= i < |t| ==> BinaryHit(t[i], p[i]) {
        forall i | 0 <= i < n
          ensures BinaryHit(t[..n][i], p[..n][i])
        {
          assert BinaryHit(t[i], p[i]);
        }
      }
    }
  }

  /** The threshold accuracy is 0 exactly when no prediction counts. */
  lemma {:induction false} BinaryHitsNone(t: Vector, p: Vector)
    requires |t| == |p|
    ensures BinaryHits(t, p) == 0 <==> forall i :: 0 <= i < |t| ==> !BinaryHit(t[i], p[i])
  {
    if |t| > 0 {
      var n := |t| - 1;
      BinaryHitsNone(t[..n], p[..n]);
      if BinaryHits(t, p) == 0 {
        forall i | 0 <= i < |t|
          ensures !BinaryHit(t[i], p[i])
        {
          if i < n {
            assert t[..n][i] == t[i] && p[..n][i] == p[i];
          }
        }
      }
      if forall i :: 0 <= i < |t| ==> !BinaryHit(t[i], p[i]) {
        forall i | 0 <= i < n
          ensures !BinaryHit(t[..n][i], p[..n][i])
        {
          assert !BinaryHit(t[i], p[i]);
        }
      }
    }
  }

  /** The scan's choice is the reference choice: column 0 when no entry is
      positive, else the first maximum (strict `>` keeps the first of tied
      maxima). */
  lemma PickedIsFirstMax(row: Vector)
    ensures IsFirstMax(row, Picked(row))
  {
    var j, m := Picked(row), Best(row);
    if !(forall k :: 0 <= k < |row| ==> row[k] <= 0.0) {
      var k :| 0 <= k < |row| && row[k] > 0.0;
      assert m >= row[k] > 0.0;
    }
  }

  /** The reference choice is unique. */
  lemma FirstMaxUnique(row: Vector, j1: int, j2: int)
    requires IsFirstMax(row, j1) && IsFirstMax(row, j2)
    ensures j1 == j2
  {
    if !(forall k :: 0 <= k < |row| ==> row[k] <= 0.0) {
      assert row[j1] <= row[j2] && row[j2] <= row[j1];
    }
  }

  /** A row with exactly one 1.0 and 0.0 elsewhere. */
  predicate IsOneHotRow(row: Vector, c: int) {
    0 <= c < |row| && forall k :: 0 <= k < |row| ==> row[k] == if k == c then 1.0 else 0.0
  }

  /** Some column holds the row's single 1.0. */
  ghost predicate HasHotColumn(row: Vector) {
    exists c :: IsOneHotRow(row, c)
  }

  /** Every row of `t` is one-hot. */
  ghost predicate IsOneHot(t: Matrix) {
    t.Valid() && forall i :: 0 <= i < t.rows ==> HasHotColumn(t.data[i])
  }

  /** On a one-hot row the scan picks the column of the 1.0. */
  lemma PickedOneHot(row: Vector, c: int)
    requires IsOneHotRow(row, c)
    ensures Picked(row) == c
  {
    PickedIsFirstMax(row);
    assert row[c] == 1.0;
    assert IsFirstMax(row, c);
    FirstMaxUnique(row, Picked(row), c);
  }

  /** Predicting a one-hot target exactly scores every row. */
  lemma {:induction false} OneHotHitsAll(t: Matrix, n: nat)
    requires IsOneHot(t) && 0 < t.cols && n <= t.rows
    ensures ArgMaxHits(t, t, n) == n
  {
    if n > 0 {
      OneHotHitsAll(t, n - 1);
      var row := t.data[n - 1];
      var c :| IsOneHotRow(row, c);
      assert row[..t.cols] == row;
      PickedOneHot(row, c);
    }
  }

  /** A one-hot target matrix has accuracy 1 against itself. */
  lemma OneHotSelfAccuracy(t: Matrix)
    requires IsOneHot(t) && 0 < t.rows && 0 < t.cols
    ensures CategoricalAccuracy(t, t) == 1.0
  {
    OneHotHitsAll(t, t.rows);
  }

  /** The labels' one-hot encoding scores 1 against itself. */
  lemma OneHotEncodingIsOneHot(v: Vector, classNum: nat)
    requires LabelsInRange(v, classNum)
    ensures IsOneHot(OneHotOf(v, classNum))
  {
    var r := OneHotOf(v, classNum);
    forall i | 0 <= i < r.rows
      ensures HasHotColumn(r.data[i])
    {
      assert IsOneHotRow(r.data[i], Trunc(v[i]));
    }
  }

  /** Predictions [[0.7, 0.3], [0.2, 0.8]] score 1 against targets
      [[1, 0], [0, 1]] and 0 against [[0, 1], [1, 0]]. */
  lemma TwoRowExample()
    ensures var p := Matrix(2, 2, [[0.7, 0.3], [0.2, 0.8]]);
      CategoricalAccuracy(Matrix(2, 2, [[1.0, 0.0], [0.0, 1.0]]), p) == 1.0 &&
      CategoricalAccuracy(Matrix(2, 2, [[0.0, 1.0], [1.0, 0.0]]), p) == 0.0
  {
    var p := Matrix(2, 2, [[0.7, 0.3], [0.2, 0.8]]);
    var r0, r1 := p.data[0][..2], p.data[1][..2];
    assert r0[..1] == [0.7] && [0.7][..0] == [];
    assert r1[..1] == [0.2] && [0.2][..0] == [];
    assert Picked(r0) == 0;
    assert Picked(r1) == 1;
  }

  /** With all predictions at or below 0.0 the scan falls back to column
      0, so such a row counts exactly when its target starts with 1.0. */
  lemma NonPositiveRowPicksColumnZero(row: Vector)
    requires forall k :: 0 <= k < |row| ==> row[k] <= 0.0
    ensures Picked(row) == 0
  {
    PickedIsFirstMax(row);
  }
}
