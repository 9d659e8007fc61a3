/** Package math.dl.ch08: the second copy of the binary logistic
    regression, identical to math.deeplearning.ch08 except that the weight
    field is named w and the error is taken with RealVector.subtract. */
module MathDlCh08 {
  import opened Matrices
  import opened MathFunctions
  import opened Utilities
  import opened Sampling
  import opened Accuracy
  import opened Training

  class BinaryLogisticRegression {
    const alpha: real
    const iters: nat
    const x: Matrix
    const xTest: Matrix
    const yt: Vector
    const ytTest: Vector
    const M: nat
    const D: nat
    const exp: real -> real
    /** The shuffled first 100 rows the splits are cut from, and where each
        of those rows went. */
    ghost const iris: Matrix
    ghost const order: seq<int>
    var w: Vector

    /** The splits have the shapes the constructor gives them. */
    ghost predicate DataValid() {
      PositiveExp(exp) && 0 < M && x.HasShape(M, D) && |yt| == M &&
      0 < |ytTest| && xTest.HasShape(|ytTest|, D)
    }

    /** ... and w has one weight per column of x. */
    ghost predicate Valid()
      reads this
    {
      DataValid() && |w| == D
    }

    /** The accuracy on the test split of the weights after n passes from
        w0 (0 when the shapes do not fit, a case no report reaches). */
    ghost function ScoreAfter(w0: Vector, n: nat): real {
      if DataValid() && |w0| == D
      then BinaryAccuracy(ytTest, SigmoidPredict(LogisticRun(w0, x, yt, alpha, exp, n), xTest, exp))
      else 0.0
    }

    /** The reports of n passes from w0: one at each multiple of 10,
        scoring the weights after that pass. */
    ghost predicate Reported(reports: seq<ScoreReport>, w0: Vector, n: nat) {
      |reports| == |Checkpoints(n, 10)| &&
      forall k :: 0 <= k < |reports| ==>
        reports[k].iter == Checkpoints(n, 10)[k] && reports[k].iter < n &&
        reports[k].score == ScoreAfter(w0, reports[k].iter + 1)
    }

    /** A pass that is not a checkpoint adds no report. */
    lemma ReportedSkip(reports: seq<ScoreReport>, w0: Vector, n: nat)
      requires Reported(reports, w0, n) && n % 10 != 0
      ensures Reported(reports, w0, n + 1)
    {
      assert Checkpoints(n + 1, 10) == Checkpoints(n, 10);
    }

    /** A checkpoint pass adds the report scoring the weights after it. */
    lemma ReportedAdd(reports: seq<ScoreReport>, w0: Vector, n: nat, score: real)
      requires Reported(reports, w0, n) && n % 10 == 0 && score == ScoreAfter(w0, n + 1)
      ensures Reported(reports + [ScoreReport(n, score)], w0, n + 1)
    {
      var r, c, c' := reports + [ScoreReport(n, score)], Checkpoints(n, 10), Checkpoints(n + 1, 10);
      assert c' == c + [n];
      forall k | 0 <= k < |r|
        ensures r[k].iter == c'[k] && r[k].iter < n + 1 && r[k].score == ScoreAfter(w0, r[k].iter + 1)
      {
        if k < |reports| {
          assert r[k] == reports[k] && c'[k] == c[k];
        }
      }
    }

    /** Shuffles rows 0..99 (columns 0..4) of the data set; x and xTest are
        rows 0..69 and 70..99 of measurement columns 0 and 1 with the bias
        column prepended, yt and ytTest the species of the same rows; w
        starts as all ones. */
    constructor (iters: nat, alpha: real, irisAll: Matrix, exp: real -> real)
      requires PositiveExp(exp) && irisAll.HasShape(150, 5)
      ensures Valid()
      ensures iris.HasShape(100, 5) && |order| == 100 && IsPool(order, 100)
      ensures forall i :: 0 <= i < 100 ==> iris.data[order[i]] == irisAll.data[i]
      ensures x == WithBiasCol(ExtractRowCol(iris, 0, 69, 0, 1))
      ensures xTest == WithBiasCol(ExtractRowCol(iris, 70, 99, 0, 1))
      ensures yt == ExtractRowColVector(iris, 0, 69, 4) && ytTest == ExtractRowColVector(iris, 70, 99, 4)
      ensures M == 70 && D == 3 && w == Ones(3)
      ensures this.iters == iters && this.alpha == alpha
    {
      this.iters, this.alpha, this.exp := iters, alpha, exp;
      var first := ExtractRowCol(irisAll, 0, 99, 0, 4);
      var shuffled;
      ghost var dest;
      shuffled, dest := Shuffle(first);
      var xa := AddBiasCol(ExtractRowCol(shuffled, 0, 69, 0, 1));
      var xta := AddBiasCol(ExtractRowCol(shuffled, 70, 99, 0, 1));
      iris, order := shuffled, dest;
      x, xTest := xa, xta;
      yt, ytTest := ExtractRowColVector(shuffled, 0, 69, 4), ExtractRowColVector(shuffled, 70, 99, 4);
      M, D := xa.rows, xa.cols;
      w := Ones(xa.cols);
    }

    /** learn(): `iters` passes of w := w - alpha * x^t (sigmoid(x w) - yt) / M
        over the whole training split; after every 10th pass the threshold
        accuracy of the updated w on the test split is reported. */
    method Learn() returns (reports: seq<ScoreReport>)
      requires Valid()
      modifies this
      ensures Valid() && w == LogisticRun(old(w), x, yt, alpha, exp, iters)
      ensures Reported(reports, old(w), iters)
    {
      ghost var w0 := w;
      reports := [];
      var i := 0;
      while i < iters
        invariant 0 <= i <= iters && Valid()
        invariant w == LogisticRun(w0, x, yt, alpha, exp, i)
        invariant Reported(reports, w0, i)
      {
        var yp := SigmoidV(Operate(x, w), exp);
        var yd := SubV(yp, yt);
        w := SubV(w, ScaleV(DivV(Operate(T(x), yd), M as real), alpha));
        if i % 10 == 0 {
          var p := SigmoidV(Operate(xTest, w), exp);
          var score := CalcAccuracyV(ytTest, p);
          ReportedAdd(reports, w0, i, score);
          reports := reports + [ScoreReport(i, score)];
        } else {
          ReportedSkip(reports, w0, i);
        }
        i := i + 1;
      }
    }
  }
}
