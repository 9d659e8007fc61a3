/** Package math.deeplearning.ch09: multi-class logistic (softmax)
    regression on the iris data set.  The 150 x 5 iris matrix (four
    measurements, then the species as 0, 1 or 2) arrives already loaded;
    `exp` is Math.exp, left uninterpreted except for being positive. */
module MathDeeplearningCh09 {
  import opened Matrices
  import opened MathFunctions
  import opened Utilities
  import opened Sampling
  import opened Accuracy
  import opened Training

  class MultipleLogisticRegression {
    const alpha: real
    const iters: nat
    const x: Matrix
    const xTest: Matrix
    const yt: Matrix
    const ytTest: Matrix
    const M: nat
    const D: nat
    const exp: real -> real
    /** The shuffled data set the splits are cut from, and where each input
        row went. */
    ghost const iris: Matrix
    ghost const order: seq<int>
    var W: Matrix

    /** The splits have the shapes the constructor gives them. */
    ghost predicate DataValid() {
      PositiveExp(exp) && 0 < M && x.HasShape(M, D) && yt.HasShape(M, 3) &&
      0 < xTest.rows && xTest.HasShape(xTest.rows, D) && ytTest.HasShape(xTest.rows, 3)
    }

    /** ... and W is D x 3. */
    ghost predicate Valid()
      reads this
    {
      DataValid() && W.HasShape(D, 3)
    }

    /** The accuracy on the test split of the weights after n passes from
        w0 (0 when the shapes do not fit, a case no report reaches). */
    ghost function ScoreAfter(w0: Matrix, n: nat): real {
      if DataValid() && w0.HasShape(D, 3)
      then CategoricalAccuracy(ytTest, SoftmaxPredict(SoftmaxRun(w0, x, yt, alpha, exp, n), xTest, exp))
      else 0.0
    }

    /** The reports of n passes from w0: one at each multiple of 10,
        scoring the weights after that pass. */
    ghost predicate Reported(reports: seq<ScoreReport>, w0: Matrix, n: nat) {
      |reports| == |Checkpoints(n, 10)| &&
      forall k :: 0 <= k < |reports| ==>
        reports[k].iter == Checkpoints(n, 10)[k] && reports[k].iter < n &&
        reports[k].score == ScoreAfter(w0, reports[k].iter + 1)
    }

    /** A pass that is not a checkpoint adds no report. */
    lemma ReportedSkip(reports: seq<ScoreReport>, w0: Matrix, n: nat)
      requires Reported(reports, w0, n) && n % 10 != 0
      ensures Reported(reports, w0, n + 1)
    {
      assert Checkpoints(n + 1, 10) == Checkpoints(n, 10);
    }

    /** A checkpoint pass adds the report scoring the weights after it. */
    lemma ReportedAdd(reports: seq<ScoreReport>, w0: Matrix, n: nat, score: real)
      requires Reported(reports, w0, n) && n % 10 == 0 && score == ScoreAfter(w0, n + 1)
      ensures Reported(reports + [ScoreReport(n, score)], w0, n + 1)
    {
      var r, c, c' := reports + [ScoreReport(n, score)], Checkpoints(n, 10), Checkpoints(n + 1, 10);
      assert c' == c + [n];
      forall k | 0 <= k < |r|
        ensures r[k].iter == c'[k] && r[k].iter < n + 1 && r[k].score == ScoreAfter(w0, r[k].iter + 1)
      {
        if k < |reports| {
          assert r[k] == reports[k] && c'[k] == c[k];
        }
      }
    }

    /** Shuffles the rows of the data set; x and xTest are rows 0..74 and
        75..149 of measurement columns 0 and 2 with the bias column
        prepended, yt and ytTest the species of the same rows one-hot
        encoded into 3 classes; W starts as all ones. */
    constructor (iters: nat, alpha: real, irisAll: Matrix, exp: real -> real)
      requires PositiveExp(exp) && irisAll.HasShape(150, 5) && LabelsInRange(Col(irisAll, 4), 3)
      ensures Valid()
      ensures iris.HasShape(150, 5) && |order| == 150 && IsPool(order, 150)
      ensures forall i :: 0 <= i < 150 ==> iris.data[order[i]] == irisAll.data[i]
      ensures x == WithBiasCol(SelectCols(ExtractRow(iris, 0, 74), [0, 2]))
      ensures xTest == WithBiasCol(SelectCols(ExtractRow(iris, 75, 149), [0, 2]))
      ensures LabelsInRange(ExtractRowColVector(iris, 0, 74, 4), 3)
      ensures LabelsInRange(ExtractRowColVector(iris, 75, 149, 4), 3)
      ensures yt == OneHotOf(ExtractRowColVector(iris, 0, 74, 4), 3)
      ensures ytTest == OneHotOf(ExtractRowColVector(iris, 75, 149, 4), 3)
      ensures M == 75 && D == 3 && W == OnesMatrix(3, 3)
      ensures this.iters == iters && this.alpha == alpha
    {
      this.iters, this.alpha, this.exp := iters, alpha, exp;
      var shuffled;
      ghost var dest;
      shuffled, dest := Shuffle(irisAll);
      ShuffleKeepsLabels(irisAll, shuffled, dest, 4, 3);
      var xs := ExtractRowCols(shuffled, 0, 74, [0, 2]);
      var xa := AddBiasCol(xs);
      var xts := ExtractRowCols(shuffled, 75, 149, [0, 2]);
      var xta := AddBiasCol(xts);
      var labels, testLabels := ExtractRowColVector(shuffled, 0, 74, 4), ExtractRowColVector(shuffled, 75, 149, 4);
      assert forall i :: 0 <= i < 75 ==> labels[i] == Col(shuffled, 4)[i] && testLabels[i] == Col(shuffled, 4)[75 + i];
      var y := OneHotEncode(labels, 3);
      var yTest := OneHotEncode(testLabels, 3);
      iris, order := shuffled, dest;
      x, xTest, yt, ytTest := xa, xta, y, yTest;
      M, D := xa.rows, xa.cols;
      W := OnesMatrix(xa.cols, 3);
    }

    /** learn(): `iters` passes of W := W - alpha * x^t (softmax(x W) - yt) / M
        over the whole training split; after every 10th pass the accuracy
        of the updated W on the test split is reported. */
    method Learn() returns (reports: seq<ScoreReport>)
      requires Valid()
      modifies this
      ensures Valid() && W == SoftmaxRun(old(W), x, yt, alpha, exp, iters)
      ensures Reported(reports, old(W), iters)
    {
      ghost var w0 := W;
      reports := [];
      var i := 0;
      while i < iters
        invariant 0 <= i <= iters && Valid()
        invariant W == SoftmaxRun(w0, x, yt, alpha, exp, i)
        invariant Reported(reports, w0, i)
      {
        var yp := Softmax(Dot(x, W), exp);
        var yd := Sub(yp, yt);
        W := Sub(W, Scale(Div(Dot(T(x), yd), M as real), alpha));
        if i % 10 == 0 {
          var p := Softmax(Dot(xTest, W), exp);
          var score := CalcAccuracy(ytTest, p);
          ReportedAdd(reports, w0, i, score);
          reports := reports + [ScoreReport(i, score)];
        } else {
          ReportedSkip(reports, w0, i);
        }
        i := i + 1;
      }
    }
  }
}
