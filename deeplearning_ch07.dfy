/** Package math.deeplearning.ch07: linear regression of the Boston house
    prices on two features (average rooms, RM, and lower-status share,
    LSTAT).  The 506 x 14 Boston matrix arrives already loaded. */
module MathDeeplearningCh07 {
  import opened Matrices
  import opened MathFunctions
  import opened Utilities
  import opened Training

  class LinearMultipleRegression {
    const alpha: real
    const iters: nat
    const x: Matrix
    const yt: Vector
    const M: nat
    const D: nat
    var W: Vector

    /** The data have the shapes the constructor gives them. */
    ghost predicate DataValid() {
      0 < M && x.HasShape(M, D) && |yt| == M
    }

    /** ... and W has one weight per column of x. */
    ghost predicate Valid()
      reads this
    {
      DataValid() && |W| == D
    }

    /** The printed loss mean(yd^2) / 2 of the weights after n passes from
        w0 (0 when the shapes do not fit, a case no report reaches). */
    ghost function LossAfter(w0: Vector, n: nat): real {
      if DataValid() && |w0| == D
      then HalfMeanSquare(Residual(LinearRun(w0, x, yt, alpha, n), x, yt))
      else 0.0
    }

    /** The reports of n passes from w0: one at each multiple of 100, with
        the loss of the residual computed before that pass's update. */
    ghost predicate Reported(reports: seq<LossReport>, w0: Vector, n: nat) {
      |reports| == |Checkpoints(n, 100)| &&
      forall k :: 0 <= k < |reports| ==>
        reports[k].iter == Checkpoints(n, 100)[k] && reports[k].iter < n &&
        reports[k].loss == LossAfter(w0, reports[k].iter)
    }

    /** A pass that is not a checkpoint adds no report. */
    lemma ReportedSkip(reports: seq<LossReport>, w0: Vector, n: nat)
      requires Reported(reports, w0, n) && n % 100 != 0
      ensures Reported(reports, w0, n + 1)
    {
      assert Checkpoints(n + 1, 100) == Checkpoints(n, 100);
    }

    /** A checkpoint pass adds the report of the loss before its update. */
    lemma ReportedAdd(reports: seq<LossReport>, w0: Vector, n: nat, loss: real)
      requires Reported(reports, w0, n) && n % 100 == 0 && loss == LossAfter(w0, n)
      ensures Reported(reports + [LossReport(n, loss)], w0, n + 1)
    {
      var r, c, c' := reports + [LossReport(n, loss)], Checkpoints(n, 100), Checkpoints(n + 1, 100);
      assert c' == c + [n];
      forall k | 0 <= k < |r|
        ensures r[k].iter == c'[k] && r[k].iter < n + 1 && r[k].loss == LossAfter(w0, r[k].iter)
      {
        if k < |reports| {
          assert r[k] == reports[k] && c'[k] == c[k];
        }
      }
    }

    /** x is columns 5 (RM) and 12 (LSTAT) with the bias column prepended,
        yt the price column 13; W starts as all ones. */
    constructor (iters: nat, alpha: real, boston: Matrix)
      requires boston.HasShape(506, 14)
      ensures Valid()
      ensures x == WithBiasCol(SelectCols(boston, [5, 12])) && yt == Col(boston, 13)
      ensures M == 506 && D == 3 && W == Ones(3)
      ensures this.iters == iters && this.alpha == alpha
    {
      this.iters, this.alpha := iters, alpha;
      var features := ExtractCols(boston, [5, 12]);
      var xa := AddBiasCol(features);
      x, yt := xa, Col(boston, 13);
      M, D := xa.rows, xa.cols;
      W := Ones(xa.cols);
    }

    /** The printed loss mean(pow(yd, 2)) / 2. */
    static method Loss(yd: Vector) returns (loss: real)
      requires |yd| > 0
      ensures loss == HalfMeanSquare(yd)
    {
      var sq := PowV(yd, 2);
      var m := Mean(sq);
      loss := m / 2.0;
    }

    /** learn(): `iters` passes of W := W - alpha * x^t (x W - yt) / M; at
        every 100th pass the loss of the residual before the update is
        reported. */
    method Learn() returns (reports: seq<LossReport>)
      requires Valid()
      modifies this
      ensures Valid() && W == LinearRun(old(W), x, yt, alpha, iters)
      ensures Reported(reports, old(W), iters)
    {
      ghost var w0 := W;
      reports := [];
      var i := 0;
      while i < iters
        invariant 0 <= i <= iters && Valid()
        invariant W == LinearRun(w0, x, yt, alpha, i)
        invariant Reported(reports, w0, i)
      {
        var yp := Operate(x, W);
        var yd := SubV(yp, yt);
        ghost var before := W;
        assert yd == Residual(before, x, yt);
        W := SubV(W, ScaleV(DivV(Operate(T(x), yd), M as real), alpha));
        assert W == LinearStep(before, x, yt, alpha);
        if i % 100 == 0 {
          var loss := Loss(yd);
          ReportedAdd(reports, w0, i, loss);
          reports := reports + [LossReport(i, loss)];
        } else {
          ReportedSkip(reports, w0, i);
        }
        i := i + 1;
      }
    }
  }
}
