/** The gradient-descent steps shared by the nine model classes, stated over
    exact reals: one step of each topology as a function of the weights
    before the step, the forward passes the classes evaluate on held-out
    data, and the reporting cadence of their learn() loops.  Each class
    module proves that its learn() loop follows these functions. */
module Training {
  import opened Matrices
  import opened MathFunctions
  import opened Utilities

  /** An accuracy line printed by a classifier: iteration and score. */
  datatype ScoreReport = ScoreReport(iter: nat, score: real)

  /** A loss line printed by a regression: iteration and mean loss. */
  datatype LossReport = LossReport(iter: nat, loss: real)

  // ---------------------------------------------------------------
  // Reporting cadence
  // ---------------------------------------------------------------

  /** The iterations among 0 .. n - 1 at which a loop that reports when
      i % every == 0 reports, in order. */
  function Checkpoints(n: nat, every: nat): (c: seq<nat>)
    requires every > 0
    ensures |c| == (n + every - 1) / every
    ensures forall k :: 0 <= k < |c| ==> c[k] == k * every
  {
    if n == 0 then []
    else
      CountStep(n - 1, every);
      Checkpoints(n - 1, every) + (if (n - 1) % every == 0 then [n - 1] else [])
  }

  /** A positive multiple of a positive e is at least e. */
  lemma MulAtLeast(d: int, e: int)
    requires d >= 1 && e > 0
    ensures d * e >= e
  {
    assert d * e == (d - 1) * e + e;
  }

  /** The quotient and remainder of a = q * e + r with 0 <= r < e. */
  lemma DivUnique(a: int, e: int, q: int, r: int)
    requires e > 0 && 0 <= r < e && a == q * e + r
    ensures a / e == q && a % e == r
  {
    var q', r' := a / e, a % e;
    assert (q' - q) * e == r - r' by {
      assert a == q' * e + r';
    }
    if q' > q {
      MulAtLeast(q' - q, e);
    } else if q' < q {
      assert (q - q') * e == r' - r;
      MulAtLeast(q - q', e);
    }
  }

  /** How the number of multiples of `every` below m grows at m. */
  lemma CountStep(m: nat, every: nat)
    requires every > 0
    ensures m % every == 0 ==> (m + every - 1) / every * every == m && (m + every) / every == (m + every - 1) / every + 1
    ensures m % every != 0 ==> (m + every) / every == (m + every - 1) / every
  {
    var q, r := m / every, m % every;
    if r == 0 {
      DivUnique(m + every - 1, every, q, every - 1);
      DivUnique(m + every, every, q + 1, 0);
    } else {
      DivUnique(m + every - 1, every, q + 1, r - 1);
      DivUnique(m + every, every, q + 1, r);
    }
  }

  /** A report is written at iteration i exactly when i < n and i is a
      multiple of `every`. */
  lemma {:induction false} CheckpointsExactly(n: nat, every: nat, i: int)
    requires every > 0
    ensures i in Checkpoints(n, every) <==> 0 <= i < n && i % every == 0
  {
    if n > 0 {
      CheckpointsExactly(n - 1, every, i);
    }
  }

  /** Reports come in strictly increasing iteration order. */
  lemma {:induction false} CheckpointsIncreasing(n: nat, every: nat)
    requires every > 0
    ensures forall k, l :: 0 <= k < l < |Checkpoints(n, every)| ==> Checkpoints(n, every)[k] < Checkpoints(n, every)[l]
    ensures forall k :: 0 <= k < |Checkpoints(n, every)| ==> Checkpoints(n, every)[k] < n
  {
    if n > 0 {
      CheckpointsIncreasing(n - 1, every);
    }
  }

  // ---------------------------------------------------------------
  // Networks with one hidden layer (ch10 DeepLearning)
  // ---------------------------------------------------------------

  /** The weights of a one-hidden-layer network: V maps the biased input
      to the hidden layer, W the biased hidden layer to the outputs. */
  datatype Net1 = Net1(V: Matrix, W: Matrix)

  /** V is d x h and W is (h + 1) x k. */
  predicate Net1Shape(n: Net1, d: nat, h: nat, k: nat) {
    n.V.HasShape(d, h) && n.W.HasShape(h + 1, k)
  }

  /** The activations of a forward pass: hidden pre-activation a, biased
      hidden output b1 and class probabilities yp. */
  datatype Forward1 = Forward1(a: Matrix, b1: Matrix, yp: Matrix)

  /** The forward pass softmax(addBiasCol(reLU(x V)) W); every product is
      conformant, giving a: batch x h, b1: batch x (h + 1), yp: batch x k. */
  function Net1Forward(n: Net1, x: Matrix, exp: real -> real): (f: Forward1)
    requires PositiveExp(exp) && x.Valid() && Net1Shape(n, x.cols, n.V.cols, n.W.cols)
    ensures f.a.HasShape(x.rows, n.V.cols)
    ensures f.b1.HasShape(x.rows, n.V.cols + 1)
    ensures f.yp.HasShape(x.rows, n.W.cols)
  {
    var a := Dot(x, n.V);
    var b1 := WithBiasCol(ReLUOf(a));
    Forward1(a, b1, SoftmaxOf(Dot(b1, n.W), exp))
  }

  /** The back-propagated hidden error step(a) * (yd removeBias(W)^t),
      from the weights before the update; batch x h like step(a). */
  function Net1HiddenError(n: Net1, f: Forward1, yd: Matrix): (bd: Matrix)
    requires Net1Shape(n, n.V.rows, n.V.cols, n.W.cols) && 1 <= n.V.cols && 1 <= n.W.cols
    requires f.a.HasShape(yd.rows, n.V.cols) && yd.HasShape(yd.rows, n.W.cols)
    ensures bd.HasShape(yd.rows, n.V.cols)
  {
    ElemMultOf(StepOf(f.a), Dot(yd, T(RemoveBias(n.W))))
  }

  /** w - alpha * (input^t delta) / batchSize, the update every layer uses. */
  function Descend(w: Matrix, input: Matrix, delta: Matrix, batchSize: nat, alpha: real): (r: Matrix)
    requires input.Valid() && delta.HasShape(input.rows, delta.cols) && w.HasShape(input.cols, delta.cols)
    requires batchSize > 0
    ensures r.HasShape(w.rows, w.cols)
    ensures forall i, j :: 0 <= i < w.rows && 0 <= j < w.cols ==>
      r.data[i][j] == w.data[i][j] - Inner(Col(input, i), Col(delta, j)) / batchSize as real * alpha
  {
    var g := Dot(T(input), delta);
    forall i, j | 0 <= i < w.rows && 0 <= j < w.cols
      ensures g.data[i][j] == Inner(Col(input, i), Col(delta, j))
    {
      assert T(input).data[i] == Col(input, i);
    }
    Sub(w, Scale(Div(g, batchSize as real), alpha))
  }

  /** One step of the one-hidden-layer network on a batch x with one-hot
      targets yt: both updates use the errors of the weights before it. */
  function Net1Step(n: Net1, x: Matrix, yt: Matrix, batchSize: nat, alpha: real, exp: real -> real): (r: Net1)
    requires PositiveExp(exp) && x.Valid() && 0 < batchSize
    requires Net1Shape(n, x.cols, n.V.cols, n.W.cols) && 1 <= n.V.cols && 1 <= n.W.cols
    requires yt.HasShape(x.rows, n.W.cols)
    ensures Net1Shape(r, x.cols, n.V.cols, n.W.cols)
  {
    var f := Net1Forward(n, x, exp);
    var yd := Sub(f.yp, yt);
    var bd := Net1HiddenError(n, f, yd);
    Net1(Descend(n.V, x, bd, batchSize, alpha), Descend(n.W, f.b1, yd, batchSize, alpha))
  }

  // ---------------------------------------------------------------
  // Networks with two hidden layers (ch10 DeepLearning2)
  // ---------------------------------------------------------------

  /** U maps the biased input to the first hidden layer, V the biased first
      hidden layer to the second, W the biased second layer to the outputs. */
  datatype Net2 = Net2(U: Matrix, V: Matrix, W: Matrix)

  /** U is d x h, V is (h + 1) x h and W is (h + 1) x k. */
  predicate Net2Shape(n: Net2, d: nat, h: nat, k: nat) {
    n.U.HasShape(d, h) && n.V.HasShape(h + 1, h) && n.W.HasShape(h + 1, k)
  }

  /** The activations of a two-layer forward pass. */
  datatype Forward2 = Forward2(a: Matrix, b1: Matrix, c: Matrix, d1: Matrix, yp: Matrix)

  /** softmax(addBiasCol(reLU(addBiasCol(reLU(x U)) V)) W): a and c are
      batch x h, b1 and d1 batch x (h + 1), yp batch x k. */
  function Net2Forward(n: Net2, x: Matrix, exp: real -> real): (f: Forward2)
    requires PositiveExp(exp) && x.Valid() && Net2Shape(n, x.cols, n.U.cols, n.W.cols)
    ensures f.a.HasShape(x.rows, n.U.cols) && f.c.HasShape(x.rows, n.U.cols)
    ensures f.b1.HasShape(x.rows, n.U.cols + 1) && f.d1.HasShape(x.rows, n.U.cols + 1)
    ensures f.yp.HasShape(x.rows, n.W.cols)
  {
    var a := Dot(x, n.U);
    var b1 := WithBiasCol(ReLUOf(a));
    var c := Dot(b1, n.V);
    var d1 := WithBiasCol(ReLUOf(c));
    Forward2(a, b1, c, d1, SoftmaxOf(Dot(d1, n.W), exp))
  }

  /** The errors of the two hidden layers, dd = step(c) * (yd removeBias(W)^t)
      and bd = step(a) * (dd removeBias(V)^t); both batch x h. */
  function Net2Errors(n: Net2, f: Forward2, yd: Matrix): (e: (Matrix, Matrix))
    requires Net2Shape(n, n.U.rows, n.U.cols, n.W.cols) && 1 <= n.U.cols && 1 <= n.W.cols
    requires f.a.HasShape(yd.rows, n.U.cols) && f.c.HasShape(yd.rows, n.U.cols)
    requires yd.HasShape(yd.rows, n.W.cols)
    ensures e.0.HasShape(yd.rows, n.U.cols) && e.1.HasShape(yd.rows, n.U.cols)
  {
    var dd := ElemMultOf(StepOf(f.c), Dot(yd, T(RemoveBias(n.W))));
    var bd := ElemMultOf(StepOf(f.a), Dot(dd, T(RemoveBias(n.V))));
    (dd, bd)
  }

  /** One step of the two-hidden-layer network; all three updates use the
      errors of the weights before it. */
  function Net2Step(n: Net2, x: Matrix, yt: Matrix, batchSize: nat, alpha: real, exp: real -> real): (r: Net2)
    requires PositiveExp(exp) && x.Valid() && 0 < batchSize
    requires Net2Shape(n, x.cols, n.U.cols, n.W.cols) && 1 <= n.U.cols && 1 <= n.W.cols
    requires yt.HasShape(x.rows, n.W.cols)
    ensures Net2Shape(r, x.cols, n.U.cols, n.W.cols)
  {
    var f := Net2Forward(n, x, exp);
    var yd := Sub(f.yp, yt);
    var e := Net2Errors(n, f, yd);
    Net2(Descend(n.U, x, e.1, batchSize, alpha), Descend(n.V, f.b1, e.0, batchSize, alpha),
         Descend(n.W, f.d1, yd, batchSize, alpha))
  }

  // ---------------------------------------------------------------
  // Softmax regression (ch09 MultipleLogisticRegression)
  // ---------------------------------------------------------------

  /** The class probabilities softmax(x W). */
  function SoftmaxPredict(w: Matrix, x: Matrix, exp: real -> real): (p: Matrix)
    requires PositiveExp(exp) && x.Valid() && w.HasShape(x.cols, w.cols)
    ensures p.HasShape(x.rows, w.cols)
  {
    SoftmaxOf(Dot(x, w), exp)
  }

  /** W - alpha * x^t (softmax(x W) - yt) / m. */
  function SoftmaxStep(w: Matrix, x: Matrix, yt: Matrix, alpha: real, exp: real -> real): (r: Matrix)
    requires PositiveExp(exp) && x.Valid() && 0 < x.rows && w.HasShape(x.cols, w.cols)
    requires yt.HasShape(x.rows, w.cols)
    ensures r.HasShape(w.rows, w.cols)
  {
    Descend(w, x, Sub(SoftmaxPredict(w, x, exp), yt), x.rows, alpha)
  }

  /** The weights after n steps from w. */
  function SoftmaxRun(w: Matrix, x: Matrix, yt: Matrix, alpha: real, exp: real -> real, n: nat): (r: Matrix)
    requires PositiveExp(exp) && x.Valid() && 0 < x.rows && w.HasShape(x.cols, w.cols)
    requires yt.HasShape(x.rows, w.cols)
    ensures r.HasShape(w.rows, w.cols)
  {
    if n == 0 then w else SoftmaxStep(SoftmaxRun(w, x, yt, alpha, exp, n - 1), x, yt, alpha, exp)
  }

  // ---------------------------------------------------------------
  // Vector-weight regressions (ch07 linear, ch08 logistic)
  // ---------------------------------------------------------------

  /** w - alpha * x^t yd / m, the update of both vector-weight models. */
  function DescendV(w: Vector, x: Matrix, yd: Vector, alpha: real): (r: Vector)
    requires x.Valid() && 0 < x.rows && |w| == x.cols && |yd| == x.rows
    ensures |r| == |w|
    ensures forall j :: 0 <= j < |w| ==> r[j] == w[j] - Inner(Col(x, j), yd) / x.rows as real * alpha
  {
    var g := Operate(T(x), yd);
    forall j | 0 <= j < |w|
      ensures g[j] == Inner(Col(x, j), yd)
    {
      assert T(x).data[j] == Col(x, j);
    }
    SubV(w, ScaleV(DivV(g, x.rows as real), alpha))
  }

  /** The residual x w - yt of a linear model. */
  function Residual(w: Vector, x: Matrix, yt: Vector): (yd: Vector)
    requires x.Valid() && |w| == x.cols && |yt| == x.rows
    ensures |yd| == x.rows && forall i :: 0 <= i < x.rows ==> yd[i] == Inner(x.data[i], w) - yt[i]
  {
    SubV(Operate(x, w), yt)
  }

  /** W - alpha * x^t (x W - yt) / m. */
  function LinearStep(w: Vector, x: Matrix, yt: Vector, alpha: real): (r: Vector)
    requires x.Valid() && 0 < x.rows && |w| == x.cols && |yt| == x.rows
    ensures |r| == |w|
  {
    DescendV(w, x, Residual(w, x, yt), alpha)
  }

  /** The weights after n linear-regression steps from w. */
  function LinearRun(w: Vector, x: Matrix, yt: Vector, alpha: real, n: nat): (r: Vector)
    requires x.Valid() && 0 < x.rows && |w| == x.cols && |yt| == x.rows
    ensures |r| == |w|
  {
    if n == 0 then w else LinearStep(LinearRun(w, x, yt, alpha, n - 1), x, yt, alpha)
  }

  /** The printed loss mean(yd^2) / 2 of the residual yd. */
  function HalfMeanSquare(yd: Vector): (l: real)
    requires |yd| > 0
    ensures l >= 0.0
  {
    SumOfSquaresZero(yd);
    Sum(PowOf(yd, 2)) / |yd| as real / 2.0
  }

  /** The probabilities sigmoid(x W). */
  function SigmoidPredict(w: Vector, x: Matrix, exp: real -> real): (p: Vector)
    requires PositiveExp(exp) && x.Valid() && |w| == x.cols
    ensures |p| == x.rows && forall i :: 0 <= i < x.rows ==> 0.0 < p[i] < 1.0
  {
    SigmoidOf(Operate(x, w), exp)
  }

  /** W - alpha * x^t (sigmoid(x W) - yt) / m. */
  function LogisticStep(w: Vector, x: Matrix, yt: Vector, alpha: real, exp: real -> real): (r: Vector)
    requires PositiveExp(exp) && x.Valid() && 0 < x.rows && |w| == x.cols && |yt| == x.rows
    ensures |r| == |w|
  {
    DescendV(w, x, SubV(SigmoidPredict(w, x, exp), yt), alpha)
  }

  /** The weights after n logistic-regression steps from w. */
  function LogisticRun(w: Vector, x: Matrix, yt: Vector, alpha: real, exp: real -> real, n: nat): (r: Vector)
    requires PositiveExp(exp) && x.Valid() && 0 < x.rows && |w| == x.cols && |yt| == x.rows
    ensures |r| == |w|
  {
    if n == 0 then w else LogisticStep(LogisticRun(w, x, yt, alpha, exp, n - 1), x, yt, alpha, exp)
  }

  /** The all-ones weight vector add(createRealVector(new double[d]), 1.0). */
  function Ones(d: nat): (w: Vector)
    ensures |w| == d && forall j :: 0 <= j < d ==> w[j] == 1.0
  {
    AddScalarV(ZeroVector(d), 1.0)
  }

  /** The all-ones weight matrix add(createRealMatrix(d, k), 1.0). */
  function OnesMatrix(d: nat, k: nat): (w: Matrix)
    ensures w.HasShape(d, k) && forall i, j :: 0 <= i < d && 0 <= j < k ==> w.data[i][j] == 1.0
  {
    AddScalar(Zeros(d, k), 1.0)
  }

  // ---------------------------------------------------------------
  // Properties of the steps
  // ---------------------------------------------------------------

  /** A vector-weight model whose error vector is zero does not move. */
  lemma DescendZeroError(w: Vector, x: Matrix, yd: Vector, alpha: real)
    requires x.Valid() && 0 < x.rows && |w| == x.cols && |yd| == x.rows
    requires forall i :: 0 <= i < |yd| ==> yd[i] == 0.0
    ensures DescendV(w, x, yd, alpha) == w
  {
    AllZeroOfEntries(yd);
    forall j | 0 <= j < |w|
      ensures DescendV(w, x, yd, alpha)[j] == w[j]
    {
      assert Inner(Col(x, j), yd) == 0.0;
    }
  }

  /** Weights one step leaves unchanged are left unchanged by every run. */
  lemma {:induction false} LinearRunStaysFixed(w: Vector, x: Matrix, yt: Vector, alpha: real, n: nat)
    requires x.Valid() && 0 < x.rows && |w| == x.cols && |yt| == x.rows
    requires LinearStep(w, x, yt, alpha) == w
    ensures LinearRun(w, x, yt, alpha, n) == w
  {
    if n > 0 {
      LinearRunStaysFixed(w, x, yt, alpha, n - 1);
    }
  }

  /** Weights that fit the data exactly (x w == yt) are a fixed point of
      linear regression: every later step leaves them unchanged. */
  lemma LinearFixedPoint(w: Vector, x: Matrix, yt: Vector, alpha: real, n: nat)
    requires x.Valid() && 0 < x.rows && |w| == x.cols && |yt| == x.rows
    requires Operate(x, w) == yt
    ensures LinearRun(w, x, yt, alpha, n) == w
  {
    DescendZeroError(w, x, Residual(w, x, yt), alpha);
    LinearRunStaysFixed(w, x, yt, alpha, n);
  }

  /** A zero learning rate leaves linear-regression weights unchanged. */
  lemma {:induction false} LinearRunZeroRate(w: Vector, x: Matrix, yt: Vector, n: nat)
    requires x.Valid() && 0 < x.rows && |w| == x.cols && |yt| == x.rows
    ensures LinearRun(w, x, yt, 0.0, n) == w
  {
    if n > 0 {
      LinearRunZeroRate(w, x, yt, n - 1);
    }
  }

  /** A zero learning rate leaves logistic-regression weights unchanged. */
  lemma {:induction false} LogisticRunZeroRate(w: Vector, x: Matrix, yt: Vector, exp: real -> real, n: nat)
    requires PositiveExp(exp) && x.Valid() && 0 < x.rows && |w| == x.cols && |yt| == x.rows
    ensures LogisticRun(w, x, yt, 0.0, exp, n) == w
  {
    if n > 0 {
      LogisticRunZeroRate(w, x, yt, exp, n - 1);
    }
  }

  /** A layer update with a zero learning rate leaves the layer unchanged. */
  lemma DescendZeroRate(w: Matrix, input: Matrix, delta: Matrix, batchSize: nat)
    requires input.Valid() && delta.HasShape(input.rows, delta.cols) && w.HasShape(input.cols, delta.cols)
    requires batchSize > 0
    ensures Descend(w, input, delta, batchSize, 0.0) == w
  {
    Extensionality(Descend(w, input, delta, batchSize, 0.0), w);
  }

  /** A zero learning rate leaves softmax-regression weights unchanged. */
  lemma {:induction false} SoftmaxRunZeroRate(w: Matrix, x: Matrix, yt: Matrix, exp: real -> real, n: nat)
    requires PositiveExp(exp) && x.Valid() && 0 < x.rows && w.HasShape(x.cols, w.cols)
    requires yt.HasShape(x.rows, w.cols)
    ensures SoftmaxRun(w, x, yt, 0.0, exp, n) == w
  {
    if n > 0 {
      SoftmaxRunZeroRate(w, x, yt, exp, n - 1);
      DescendZeroRate(w, x, Sub(SoftmaxPredict(w, x, exp), yt), x.rows);
    }
  }

  /** A zero learning rate leaves both layers of a one-hidden-layer
      network unchanged. */
  lemma Net1StepZeroRate(n: Net1, x: Matrix, yt: Matrix, batchSize: nat, exp: real -> real)
    requires PositiveExp(exp) && x.Valid() && 0 < batchSize
    requires Net1Shape(n, x.cols, n.V.cols, n.W.cols) && 1 <= n.V.cols && 1 <= n.W.cols
    requires yt.HasShape(x.rows, n.W.cols)
    ensures Net1Step(n, x, yt, batchSize, 0.0, exp) == n
  {
    var f := Net1Forward(n, x, exp);
    var yd := Sub(f.yp, yt);
    DescendZeroRate(n.V, x, Net1HiddenError(n, f, yd), batchSize);
    DescendZeroRate(n.W, f.b1, yd, batchSize);
  }

  /** A zero learning rate leaves all three layers of a two-hidden-layer
      network unchanged. */
  lemma Net2StepZeroRate(n: Net2, x: Matrix, yt: Matrix, batchSize: nat, exp: real -> real)
    requires PositiveExp(exp) && x.Valid() && 0 < batchSize
    requires Net2Shape(n, x.cols, n.U.cols, n.W.cols) && 1 <= n.U.cols && 1 <= n.W.cols
    requires yt.HasShape(x.rows, n.W.cols)
    ensures Net2Step(n, x, yt, batchSize, 0.0, exp) == n
  {
    var f := Net2Forward(n, x, exp);
    var yd := Sub(f.yp, yt);
    var e := Net2Errors(n, f, yd);
    DescendZeroRate(n.U, x, e.1, batchSize);
    DescendZeroRate(n.V, f.b1, e.0, batchSize);
    DescendZeroRate(n.W, f.d1, yd, batchSize);
  }

  /** The reported loss is zero exactly when the weights fit the data. */
  lemma LossZeroIffFit(w: Vector, x: Matrix, yt: Vector)
    requires x.Valid() && 0 < x.rows && |w| == x.cols && |yt| == x.rows
    ensures HalfMeanSquare(Residual(w, x, yt)) == 0.0 <==> Operate(x, w) == yt
  {
    var yd := Residual(w, x, yt);
    SumOfSquaresZero(yd);
    if Operate(x, w) == yt {
      assert forall k :: 0 <= k < |yd| ==> yd[k] == 0.0;
    }
    if HalfMeanSquare(yd) == 0.0 {
      assert Sum(PowOf(yd, 2)) == 0.0;
      assert forall k :: 0 <= k < |yd| ==> yd[k] == 0.0;
      assert Operate(x, w) == yt;
    }
  }

  /** One step on x = [[1,1],[1,2],[1,3]], yt = [2,4,6] from w = [1,1] at
      rate 0.01 gives w - 0.01 x^t (x w - yt) / 3 = [1.01, 77/75]. */
  lemma LinearStepExample()
    ensures LinearStep([1.0, 1.0], Matrix(3, 2, [[1.0, 1.0], [1.0, 2.0], [1.0, 3.0]]), [2.0, 4.0, 6.0], 0.01)
      == [1.01, 77.0 / 75.0]
  {
    var x := Matrix(3, 2, [[1.0, 1.0], [1.0, 2.0], [1.0, 3.0]]);
    var w, yt := [1.0, 1.0], [2.0, 4.0, 6.0];
    InnerOfTwo(x.data[0], w);
    InnerOfTwo(x.data[1], w);
    InnerOfTwo(x.data[2], w);
    var yd := Residual(w, x, yt);
    assert yd == [0.0, -1.0, -2.0];
    var c0, c1 := Col(x, 0), Col(x, 1);
    assert c0 == [1.0, 1.0, 1.0] && c1 == [1.0, 2.0, 3.0];
    InnerOfThree(c0, yd);
    InnerOfThree(c1, yd);
    var r := LinearStep(w, x, yt, 0.01);
    assert r[0] == 1.01 && r[1] == 77.0 / 75.0;
  }

  /** The inner product of two pairs, written out. */
  lemma InnerOfTwo(u: Vector, v: Vector)
    requires |u| == 2 && |v| == 2
    ensures Inner(u, v) == u[0] * v[0] + u[1] * v[1]
  {
    var u1, v1 := u[..1], v[..1];
    assert u1[..0] == [] && v1[..0] == [];
    assert Inner(u1, v1) == Inner(u1[..0], v1[..0]) + u1[0] * v1[0];
    assert Inner(u, v) == Inner(u1, v1) + u[1] * v[1];
  }

  /** The inner product of two triples, written out. */
  lemma InnerOfThree(u: Vector, v: Vector)
    requires |u| == 3 && |v| == 3
    ensures Inner(u, v) == u[0] * v[0] + u[1] * v[1] + u[2] * v[2]
  {
    InnerOfTwo(u[..2], v[..2]);
    assert Inner(u, v) == Inner(u[..2], v[..2]) + u[2] * v[2];
  }
}
