/** The loop-based "Math Functions" of Util.java: elementwise mult, pow,
    mean, sigmoid, softmax, reLU and step.  Each method works on a fresh
    copy of its argument's entries, as the source does with getData() and
    toArray(), and is proved against a specification function.  Math.exp
    is the parameter `exp`, assumed only to be positive. */
module MathFunctions {
  import opened Matrices

  // ---------------------------------------------------------------
  // Scalar functions
  // ---------------------------------------------------------------

  /** The reLU of one entry: entries <= 0 become 0.0, so the result is the
      larger of x and 0. */
  function Relu(x: real): (r: real)
    ensures r >= 0.0 && r >= x && (r == x || r == 0.0)
  {
    if x <= 0.0 then 0.0 else x
  }

  /** The step of one entry: 0.0 where x <= 0, else 1.0; it is the mask
      that turns x into its reLU. */
  function StepOne(x: real): (r: real)
    ensures r == 1.0 <==> x > 0.0
    ensures r == 0.0 <==> x <= 0.0
    ensures r * x == Relu(x)
  {
    if x <= 0.0 then 0.0 else 1.0
  }

  /** An abstraction of Math.exp: only its positivity is used. */
  ghost predicate PositiveExp(exp: real -> real) {
    forall z :: exp(z) > 0.0
  }

  /** sigmoid(double): 1 / (1 + e^-x), which lies strictly between 0 and 1. */
  function Sigmoid(x: real, exp: real -> real): (s: real)
    requires PositiveExp(exp)
    ensures 0.0 < s < 1.0
  {
    ExpPositiveAt(exp, -x);
    1.0 / (1.0 + exp(-x))
  }

  /** x to the natural power n (Math.pow with an integral exponent). */
  function Power(x: real, n: nat): real {
    if n == 0 then 1.0 else Power(x, n - 1) * x
  }

  /** Applies `f` to every entry. */
  function MapEntries(a: Matrix, f: real -> real): (r: Matrix)
    requires a.Valid()
    ensures r.HasShape(a.rows, a.cols)
    ensures forall i, j :: 0 <= i < a.rows && 0 <= j < a.cols ==> r.data[i][j] == f(a.data[i][j])
  {
    Matrix(a.rows, a.cols, seq(a.rows, i requires 0 <= i < a.rows =>
      seq(a.cols, j requires 0 <= j < a.cols => f(a.data[i][j]))))
  }

  /** Applies `f` to every entry of a vector. */
  function MapVector(v: Vector, f: real -> real): (r: Vector)
    ensures |r| == |v| && forall i :: 0 <= i < |v| ==> r[i] == f(v[i])
  {
    seq(|v|, i requires 0 <= i < |v| => f(v[i]))
  }

  // ---------------------------------------------------------------
  // Specification functions
  // ---------------------------------------------------------------

  function ReLUOf(a: Matrix): (r: Matrix)
    requires a.Valid()
    ensures r.HasShape(a.rows, a.cols)
    ensures forall i, j :: 0 <= i < a.rows && 0 <= j < a.cols ==>
      (r.data[i][j] == a.data[i][j] && a.data[i][j] > 0.0) || (r.data[i][j] == 0.0 && a.data[i][j] <= 0.0)
  {
    MapEntries(a, Relu)
  }

  function StepOf(a: Matrix): (r: Matrix)
    requires a.Valid()
    ensures r.HasShape(a.rows, a.cols)
    ensures forall i, j :: 0 <= i < a.rows && 0 <= j < a.cols ==>
      (r.data[i][j] == 1.0 && a.data[i][j] > 0.0) || (r.data[i][j] == 0.0 && a.data[i][j] <= 0.0)
  {
    MapEntries(a, StepOne)
  }

  /** Elementwise product, sized from `a` alone: `b` may be larger and its
      extra rows and columns are never read. */
  function ElemMultOf(a: Matrix, b: Matrix): (r: Matrix)
    requires a.Valid() && b.Valid() && a.rows <= b.rows && a.cols <= b.cols
    ensures r.HasShape(a.rows, a.cols)
    ensures forall i, j :: 0 <= i < a.rows && 0 <= j < a.cols ==> r.data[i][j] == a.data[i][j] * b.data[i][j]
  {
    Matrix(a.rows, a.cols, seq(a.rows, i requires 0 <= i < a.rows =>
      seq(a.cols, j requires 0 <= j < a.cols => a.data[i][j] * b.data[i][j])))
  }

  /** exp applied to each entry of a row. */
  function Exps(v: Vector, exp: real -> real): (e: Vector)
    ensures |e| == |v| && forall j :: 0 <= j < |v| ==> e[j] == exp(v[j])
  {
    MapVector(v, exp)
  }

  /** One softmax row: every entry's exponential divided by the row's own
      sum of exponentials. */
  function SoftmaxRow(v: Vector, exp: real -> real): (r: Vector)
    requires PositiveExp(exp)
    ensures |r| == |v|
    ensures forall j :: 0 <= j < |v| ==> Sum(Exps(v, exp)) > 0.0 && r[j] == exp(v[j]) / Sum(Exps(v, exp))
  {
    if |v| == 0 then [] else
      ExpsPositive(v, exp);
      SumPositive(Exps(v, exp));
      var s := Sum(Exps(v, exp));
      seq(|v|, j requires 0 <= j < |v| => exp(v[j]) / s)
  }

  /** softmax(RealMatrix): every row normalised by its own sum. */
  function SoftmaxOf(a: Matrix, exp: real -> real): (r: Matrix)
    requires a.Valid() && PositiveExp(exp)
    ensures r.HasShape(a.rows, a.cols)
    ensures forall i :: 0 <= i < a.rows ==> r.data[i] == SoftmaxRow(a.data[i], exp)
  {
    Matrix(a.rows, a.cols, seq(a.rows, i requires 0 <= i < a.rows => SoftmaxRow(a.data[i], exp)))
  }

  /** sigmoid(RealVector): the sigmoid of each entry. */
  function SigmoidOf(v: Vector, exp: real -> real): (r: Vector)
    requires PositiveExp(exp)
    ensures |r| == |v| && forall i :: 0 <= i < |v| ==> r[i] == Sigmoid(v[i], exp) && 0.0 < r[i] < 1.0
  {
    seq(|v|, i requires 0 <= i < |v| => Sigmoid(v[i], exp))
  }

  /** pow(RealVector, n): each entry to the n-th power. */
  function PowOf(v: Vector, n: nat): (r: Vector)
    ensures |r| == |v| && forall i :: 0 <= i < |v| ==> r[i] == Power(v[i], n)
  {
    seq(|v|, i requires 0 <= i < |v| => Power(v[i], n))
  }

  // ---------------------------------------------------------------
  // Methods, one per loop-based member of Util.java
  // ---------------------------------------------------------------

  /** mult(RealMatrix, RealMatrix): the result is sized from `a` only;
      `b` needs at least as many rows and columns, and `a` at least one row
      (the source sizes the columns from its first row). */
  method ElemMult(a: Matrix, b: Matrix) returns (r: Matrix)
    requires a.Valid() && b.Valid() && 0 < a.rows <= b.rows && a.cols <= b.cols
    ensures r == ElemMultOf(a, b)
  {
    var retA2 := new real[a.rows, |a.data[0]|];
    var i := 0;
    while i < a.rows
      invariant 0 <= i <= a.rows
      invariant forall k, l :: 0 <= k < i && 0 <= l < a.cols ==> retA2[k, l] == a.data[k][l] * b.data[k][l]
    {
      var j := 0;
      while j < |a.data[i]|
        invariant 0 <= j <= a.cols
        invariant forall k, l :: 0 <= k < i && 0 <= l < a.cols ==> retA2[k, l] == a.data[k][l] * b.data[k][l]
        invariant forall l :: 0 <= l < j ==> retA2[i, l] == a.data[i][l] * b.data[i][l]
      {
        retA2[i, j] := a.data[i][j] * b.data[i][j];
        j := j + 1;
      }
      i := i + 1;
    }
    r := FromArray(retA2);
    Extensionality(r, ElemMultOf(a, b));
  }

  /** reLU(RealMatrix): zeroes every entry <= 0 of a copy. */
  method ReLU(a: Matrix) returns (r: Matrix)
    requires a.Valid()
    ensures r == ReLUOf(a)
  {
    var aA2 := GetData(a);
    var i := 0;
    while i < aA2.Length0
      invariant 0 <= i <= a.rows
      invariant forall k, l :: 0 <= k < a.rows && 0 <= l < a.cols ==>
        aA2[k, l] == if k < i then Relu(a.data[k][l]) else a.data[k][l]
    {
      var j := 0;
      while j < aA2.Length1
        invariant 0 <= j <= a.cols
        invariant forall k, l :: 0 <= k < a.rows && 0 <= l < a.cols ==>
          aA2[k, l] == if k < i || (k == i && l < j) then Relu(a.data[k][l]) else a.data[k][l]
      {
        if aA2[i, j] <= 0.0 {
          aA2[i, j] := 0.0;
        }
        j := j + 1;
      }
      i := i + 1;
    }
    r := FromArray(aA2);
    Extensionality(r, ReLUOf(a));
  }

  /** step(RealMatrix): 0.0 where an entry is <= 0, 1.0 elsewhere. */
  method Step(a: Matrix) returns (r: Matrix)
    requires a.Valid()
    ensures r == StepOf(a)
  {
    var aA2 := GetData(a);
    var i := 0;
    while i < aA2.Length0
      invariant 0 <= i <= a.rows
      invariant forall k, l :: 0 <= k < a.rows && 0 <= l < a.cols ==>
        aA2[k, l] == if k < i then StepOne(a.data[k][l]) else a.data[k][l]
    {
      var j := 0;
      while j < aA2.Length1
        invariant 0 <= j <= a.cols
        invariant forall k, l :: 0 <= k < a.rows && 0 <= l < a.cols ==>
          aA2[k, l] == if k < i || (k == i && l < j) then StepOne(a.data[k][l]) else a.data[k][l]
      {
        aA2[i, j] := if aA2[i, j] <= 0.0 then 0.0 else 1.0;
        j := j + 1;
      }
      i := i + 1;
    }
    r := FromArray(aA2);
    Extensionality(r, StepOf(a));
  }

  /** pow(RealMatrix, n): every entry to the n-th power. */
  method Pow(a: Matrix, n: nat) returns (r: Matrix)
    requires a.Valid()
    ensures r == MapEntries(a, x => Power(x, n))
  {
    var pA2 := GetData(a);
    var i := 0;
    while i < pA2.Length0
      invariant 0 <= i <= a.rows
      invariant forall k, l :: 0 <= k < a.rows && 0 <= l < a.cols ==>
        pA2[k, l] == if k < i then Power(a.data[k][l], n) else a.data[k][l]
    {
      var j := 0;
      while j < pA2.Length1
        invariant 0 <= j <= a.cols
        invariant forall k, l :: 0 <= k < a.rows && 0 <= l < a.cols ==>
          pA2[k, l] == if k < i || (k == i && l < j) then Power(a.data[k][l], n) else a.data[k][l]
      {
        pA2[i, j] := Power(pA2[i, j], n);
        j := j + 1;
      }
      i := i + 1;
    }
    r := FromArray(pA2);
    Extensionality(r, MapEntries(a, x => Power(x, n)));
  }

  /** pow(RealVector, n). */
  method PowV(v: Vector, n: nat) returns (r: Vector)
    ensures r == PowOf(v, n)
  {
    var pA := new real[|v|](i requires 0 <= i < |v| => v[i]);
    var i := 0;
    while i < pA.Length
      invariant 0 <= i <= |v|
      invariant forall k :: 0 <= k < |v| ==> pA[k] == if k < i then Power(v[k], n) else v[k]
    {
      pA[i] := Power(pA[i], n);
      i := i + 1;
    }
    r := pA[..];
  }

  /** mean(RealVector): the sum divided by the length.  An empty vector
      gives NaN in the source; here it is excluded. */
  method Mean(v: Vector) returns (m: real)
    requires |v| > 0
    ensures m == Sum(v) / |v| as real
  {
    var sum := 0.0;
    var i := 0;
    while i < |v|
      invariant 0 <= i <= |v|
      invariant sum == Sum(v[..i])
    {
      assert v[..i + 1][..i] == v[..i];
      sum := sum + v[i];
      i := i + 1;
    }
    assert v[..|v|] == v;
    m := sum / |v| as real;
  }

  /** sigmoid(RealVector). */
  method SigmoidV(v: Vector, exp: real -> real) returns (r: Vector)
    requires PositiveExp(exp)
    ensures r == SigmoidOf(v, exp)
  {
    var aA := new real[|v|](i requires 0 <= i < |v| => v[i]);
    var i := 0;
    while i < aA.Length
      invariant 0 <= i <= |v|
      invariant forall k :: 0 <= k < |v| ==> aA[k] == if k < i then Sigmoid(v[k], exp) else v[k]
    {
      aA[i] := Sigmoid(aA[i], exp);
      i := i + 1;
    }
    r := aA[..];
  }

  /** First inner loop of softmax(RealMatrix): exponentiates row `i` in
      place and returns the sum of the exponentials. */
  method ExpRowInPlace(aA2: array2<real>, i: nat, exp: real -> real) returns (sum: real)
    requires i < aA2.Length0
    modifies aA2
    ensures sum == Sum(Exps(old(FromArray(aA2)).data[i], exp))
    ensures forall k, l :: 0 <= k < aA2.Length0 && 0 <= l < aA2.Length1 ==>
      aA2[k, l] == if k == i then exp(old(aA2[k, l])) else old(aA2[k, l])
  {
    ghost var e := Exps(old(FromArray(aA2)).data[i], exp);
    sum := 0.0;
    var j := 0;
    while j < aA2.Length1
      invariant 0 <= j <= aA2.Length1
      invariant sum == Sum(e[..j])
      invariant forall k, l :: 0 <= k < aA2.Length0 && 0 <= l < aA2.Length1 ==>
        aA2[k, l] == if k == i && l < j then exp(old(aA2[k, l])) else old(aA2[k, l])
    {
      assert e[..j + 1][..j] == e[..j];
      aA2[i, j] := exp(aA2[i, j]);
      sum := sum + aA2[i, j];
      j := j + 1;
    }
    assert e[..aA2.Length1] == e;
  }

  /** Second inner loop of softmax(RealMatrix): divides row `i` by `sum`. */
  method DivideRowInPlace(aA2: array2<real>, i: nat, sum: real)
    requires i < aA2.Length0 && (aA2.Length1 > 0 ==> sum != 0.0)
    modifies aA2
    ensures forall k, l :: 0 <= k < aA2.Length0 && 0 <= l < aA2.Length1 ==>
      aA2[k, l] == if k == i then old(aA2[k, l]) / sum else old(aA2[k, l])
  {
    var j := 0;
    while j < aA2.Length1
      invariant 0 <= j <= aA2.Length1
      invariant forall k, l :: 0 <= k < aA2.Length0 && 0 <= l < aA2.Length1 ==>
        aA2[k, l] == if k == i && l < j then old(aA2[k, l]) / sum else old(aA2[k, l])
    {
      aA2[i, j] := aA2[i, j] / sum;
      j := j + 1;
    }
  }

  /** softmax(RealMatrix): per row, exponentiate each entry while summing,
      then divide the row by its own sum. */
  method Softmax(a: Matrix, exp: real -> real) returns (r: Matrix)
    requires a.Valid() && PositiveExp(exp)
    ensures r == SoftmaxOf(a, exp)
  {
    var aA2 := GetData(a);
    ghost var s := SoftmaxOf(a, exp);
    var i := 0;
    while i < aA2.Length0
      invariant 0 <= i <= a.rows
      invariant forall k, l :: 0 <= k < a.rows && 0 <= l < a.cols ==>
        aA2[k, l] == if k < i then s.data[k][l] else a.data[k][l]
    {
      assert FromArray(aA2).data[i] == a.data[i];
      var sum := ExpRowInPlace(aA2, i, exp);
      if a.cols > 0 {
        assert s.data[i][0] == exp(a.data[i][0]) / sum;
      }
      DivideRowInPlace(aA2, i, sum);
      i := i + 1;
    }
    r := FromArray(aA2);
    Extensionality(r, s);
  }

  // ---------------------------------------------------------------
  // Properties
  // ---------------------------------------------------------------

  lemma ExpPositiveAt(exp: real -> real, x: real)
    requires PositiveExp(exp)
    ensures exp(x) > 0.0
  {
  }

  /** Every exponential is positive. */
  lemma ExpsPositive(v: Vector, exp: real -> real)
    requires PositiveExp(exp)
    ensures forall j :: 0 <= j < |v| ==> Exps(v, exp)[j] > 0.0
  {
    forall j | 0 <= j < |v|
      ensures Exps(v, exp)[j] > 0.0
    {
      ExpPositiveAt(exp, v[j]);
    }
  }

  /** A non-empty sum of positive terms is positive. */
  lemma {:induction false} SumPositive(e: Vector)
    requires |e| > 0 && forall j :: 0 <= j < |e| ==> e[j] > 0.0
    ensures Sum(e) > 0.0
  {
    if |e| > 1 {
      SumPositive(e[..|e| - 1]);
    }
  }

  /** A sum of non-negative terms is at least each of its terms. */
  lemma {:induction false} TermAtMostSum(e: Vector, k: nat)
    requires k < |e| && forall j :: 0 <= j < |e| ==> e[j] >= 0.0
    ensures e[k] <= Sum(e)
  {
    var init := e[..|e| - 1];
    assert forall j :: 0 <= j < |init| ==> init[j] >= 0.0;
    if k < |e| - 1 {
      TermAtMostSum(init, k);
    } else {
      NonNegativeOfEntries(init);
    }
  }

  /** Dividing every term by `s` divides the sum by `s`. */
  lemma {:induction false} SumDivide(e: Vector, q: Vector, s: real)
    requires s != 0.0 && |q| == |e| && forall j :: 0 <= j < |e| ==> q[j] == e[j] / s
    ensures Sum(q) == Sum(e) / s
  {
    if |e| > 0 {
      var n := |e| - 1;
      SumDivide(e[..n], q[..n], s);
      assert Sum(q) == Sum(q[..n]) + q[n] && Sum(e) == Sum(e[..n]) + e[n];
      assert Sum(q[..n]) + q[n] == Sum(e[..n]) / s + e[n] / s;
    }
  }

  /** Each softmax row is a probability distribution: its entries lie in
      (0, 1] and, for a non-empty row, sum to exactly 1. */
  lemma SoftmaxRowIsDistribution(v: Vector, exp: real -> real)
    requires PositiveExp(exp) && |v| > 0
    ensures Sum(SoftmaxRow(v, exp)) == 1.0
    ensures forall j :: 0 <= j < |v| ==> 0.0 < SoftmaxRow(v, exp)[j] <= 1.0
  {
    SoftmaxRowSumsToOne(v, exp);
    SoftmaxRowEntriesInUnit(v, exp);
  }

  lemma SoftmaxRowSumsToOne(v: Vector, exp: real -> real)
    requires PositiveExp(exp) && |v| > 0
    ensures Sum(SoftmaxRow(v, exp)) == 1.0
  {
    var e := Exps(v, exp);
    ExpsPositive(v, exp);
    SumPositive(e);
    SumDivide(e, SoftmaxRow(v, exp), Sum(e));
    DivSelf(Sum(e));
  }

  lemma SoftmaxRowEntriesInUnit(v: Vector, exp: real -> real)
    requires PositiveExp(exp)
    ensures forall j :: 0 <= j < |v| ==> 0.0 < SoftmaxRow(v, exp)[j] <= 1.0
  {
    var e, r := Exps(v, exp), SoftmaxRow(v, exp);
    ExpsPositive(v, exp);
    forall j | 0 <= j < |v|
      ensures 0.0 < r[j] <= 1.0
    {
      TermAtMostSum(e, j);
      RatioInUnit(e[j], Sum(e));
    }
  }

  lemma DivSelf(s: real)
    requires s != 0.0
    ensures s / s == 1.0
  {
  }

  lemma RatioInUnit(a: real, b: real)
    requires 0.0 < a <= b
    ensures 0.0 < a / b <= 1.0
  {
    assert a / b * b == a;
  }

  /** step(a) is 1.0 exactly where reLU(a) is positive, and 0.0 elsewhere. */
  lemma StepMarksPositiveReLU(a: Matrix, i: nat, j: nat)
    requires a.Valid() && i < a.rows && j < a.cols
    ensures StepOf(a).data[i][j] == 1.0 <==> ReLUOf(a).data[i][j] > 0.0
    ensures StepOf(a).data[i][j] == 0.0 <==> ReLUOf(a).data[i][j] == 0.0
  {
  }

  /** A sum of squares is zero only when every term is zero. */
  lemma {:induction false} SumOfSquaresZero(v: Vector)
    ensures Sum(PowOf(v, 2)) >= 0.0
    ensures Sum(PowOf(v, 2)) == 0.0 <==> forall k :: 0 <= k < |v| ==> v[k] == 0.0
  {
    if |v| > 0 {
      var init := v[..|v| - 1];
      assert PowOf(v, 2)[..|v| - 1] == PowOf(init, 2);
      SumOfSquaresZero(init);
      var x := v[|v| - 1];
      assert Power(x, 1) == x;
      assert Power(x, 2) == x * x;
      if Sum(PowOf(v, 2)) == 0.0 {
        assert x * x == 0.0;
        forall k | 0 <= k < |v|
          ensures v[k] == 0.0
        {
          if k < |v| - 1 {
            assert init[k] == v[k];
          }
        }
      }
    }
  }
}
