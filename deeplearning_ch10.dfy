/** Package math.deeplearning.ch10: the MNIST networks with one
    (DeepLearning) and two (DeepLearning2) ReLU hidden layers, trained by
    mini-batch gradient descent on batches drawn without replacement from
    an index pool.  The images and labels arrive already loaded; `exp` is
    Math.exp, left uninterpreted except for being positive. */
module MathDeeplearningCh10 {
  import opened Matrices
  import opened MathFunctions
  import opened Utilities
  import opened Sampling
  import opened Accuracy
  import opened Training

  /** The one-hidden-layer network: V is D x H, W is (H + 1) x N. */
  class DeepLearning {
    const M: nat
    const D: nat
    const N: nat
    const iters: nat
    const batchSize: nat
    const alpha: real
    const xAll: Matrix
    const xTest: Matrix
    const ytAll: Matrix
    const ytTest: Matrix
    const exp: real -> real
    /** The hidden width, a constructor argument the weight shapes keep. */
    const H: nat
    var V: Matrix
    var W: Matrix

    /** The data have the shapes the constructor gives them. */
    ghost predicate DataValid() {
      PositiveExp(exp) && 0 < N &&
      xAll.HasShape(M, D) && ytAll.HasShape(ytAll.rows, N) &&
      xTest.Valid() && ytTest.HasShape(ytTest.rows, N)
    }

    /** ... and so do the weights. */
    ghost predicate Valid()
      reads this
    {
      DataValid() && Net1Shape(Net1(V, W), D, H, N)
    }

    /** The accuracy on the held-out split of the network with weights n
        (0 when the shapes do not fit, a case no report reaches). */
    ghost function Score(n: Net1): real {
      if DataValid() && Net1Shape(n, D, H, N) && xTest.cols == D && 0 < ytTest.rows <= xTest.rows
      then CategoricalAccuracy(ytTest, Net1Forward(n, xTest, exp).yp)
      else 0.0
    }

    /** After n passes, `batches` holds n batches of batchSize distinct row
        indices below M, and `trace` the n + 1 weights, each obtained from
        the one before by a step on the rows its batch names. */
    ghost predicate Follows(batches: seq<seq<int>>, trace: seq<Net1>, n: nat)
      requires DataValid() && 1 <= H && 0 < batchSize && M <= ytAll.rows
    {
      |batches| == n && |trace| == n + 1 &&
      (forall j :: 0 <= j <= n ==> Net1Shape(trace[j], D, H, N)) &&
      (forall j :: 0 <= j < n ==> |batches[j]| == batchSize && IsPool(batches[j], M)) &&
      (forall j :: 0 <= j < n ==>
        trace[j + 1] == Net1Step(trace[j], Gather(xAll, batches[j]), Gather(ytAll, batches[j]), batchSize, alpha, exp))
    }

    /** The reports of n passes: one at each checkpoint, scoring the
        weights after that pass. */
    ghost predicate Reported(reports: seq<ScoreReport>, trace: seq<Net1>, n: nat)
      requires |trace| == n + 1
    {
      |reports| == |Checkpoints(n, 100)| &&
      forall k :: 0 <= k < |reports| ==>
        reports[k].iter == Checkpoints(n, 100)[k] && reports[k].iter < n &&
        reports[k].score == Score(trace[reports[k].iter + 1])
    }

    /** One more pass extends the record of the passes. */
    lemma FollowsStep(batches: seq<seq<int>>, trace: seq<Net1>, n: nat, index: seq<int>, next: Net1)
      requires DataValid() && 1 <= H && 0 < batchSize && M <= ytAll.rows
      requires Follows(batches, trace, n) && |index| == batchSize && IsPool(index, M)
      requires next == Net1Step(trace[n], Gather(xAll, index), Gather(ytAll, index), batchSize, alpha, exp)
      ensures Follows(batches + [index], trace + [next], n + 1)
    {
      var b, t := batches + [index], trace + [next];
      assert forall j :: 0 <= j < n ==> b[j] == batches[j];
      assert forall j :: 0 <= j <= n ==> t[j] == trace[j];
    }

    /** A pass that is not a checkpoint adds no report. */
    lemma ReportedSkip(reports: seq<ScoreReport>, trace: seq<Net1>, n: nat, next: Net1)
      requires |trace| == n + 1 && Reported(reports, trace, n) && n % 100 != 0
      ensures Reported(reports, trace + [next], n + 1)
    {
      var t := trace + [next];
      assert Checkpoints(n + 1, 100) == Checkpoints(n, 100);
      forall k | 0 <= k < |reports|
        ensures Score(t[reports[k].iter + 1]) == Score(trace[reports[k].iter + 1])
      {
        assert t[reports[k].iter + 1] == trace[reports[k].iter + 1];
      }
    }

    /** A checkpoint pass adds the report scoring its weights. */
    lemma ReportedAdd(reports: seq<ScoreReport>, trace: seq<Net1>, n: nat, next: Net1, score: real)
      requires |trace| == n + 1 && Reported(reports, trace, n) && n % 100 == 0
      requires score == Score(next)
      ensures Reported(reports + [ScoreReport(n, score)], trace + [next], n + 1)
    {
      var t, r := trace + [next], reports + [ScoreReport(n, score)];
      assert Checkpoints(n + 1, 100) == Checkpoints(n, 100) + [n];
      forall k | 0 <= k < |reports|
        ensures r[k] == reports[k] && Score(t[reports[k].iter + 1]) == Score(trace[reports[k].iter + 1])
      {
        assert t[reports[k].iter + 1] == trace[reports[k].iter + 1];
      }
      assert t[n + 1] == next && r[|reports|] == ScoreReport(n, score);
    }

    /** Scales the pixels by 1/255 and adds the bias column, one-hot
        encodes the labels into 10 classes and draws V and W. */
    constructor (iters: nat, H: nat, batchSize: nat, alpha: real,
                 trainImages: Matrix, trainLabels: Vector, testImages: Matrix, testLabels: Vector,
                 exp: real -> real)
      requires PositiveExp(exp) && trainImages.Valid() && testImages.Valid()
      requires LabelsInRange(trainLabels, 10) && LabelsInRange(testLabels, 10)
      ensures Valid()
      ensures xAll == WithBiasCol(Div(trainImages, 255.0)) && xTest == WithBiasCol(Div(testImages, 255.0))
      ensures ytAll == OneHotOf(trainLabels, 10) && ytTest == OneHotOf(testLabels, 10)
      ensures M == trainImages.rows && D == trainImages.cols + 1 && N == 10
      ensures this.iters == iters && this.H == H && this.batchSize == batchSize && this.alpha == alpha
      ensures V.HasShape(D, H) && W.HasShape(H + 1, N)
    {
      var x := AddBiasCol(Div(trainImages, 255.0));
      var xt := AddBiasCol(Div(testImages, 255.0));
      var y := OneHotEncode(trainLabels, 10);
      var yt := OneHotEncode(testLabels, 10);
      var v := InitW(x.cols, H);
      var w := InitW(H + 1, y.cols);
      xAll, xTest, ytAll, ytTest := x, xt, y, yt;
      M, D, N := x.rows, x.cols, y.cols;
      this.iters, this.H, this.batchSize, this.alpha, this.exp := iters, H, batchSize, alpha, exp;
      V, W := v, w;
    }

    /** One pass of the loop body on the batch x, yt: forward pass, errors,
        then W and V updated from the errors of the weights before the pass. */
    method Update(x: Matrix, yt: Matrix)
      requires Valid() && 1 <= H && 0 < batchSize
      requires x.HasShape(batchSize, D) && yt.HasShape(batchSize, N)
      modifies this
      ensures Valid()
      ensures Net1(V, W) == Net1Step(Net1(old(V), old(W)), x, yt, batchSize, alpha, exp)
    {
      var a := Dot(x, V);
      var b := ReLU(a);
      var b1 := AddBiasCol(b);
      var u := Dot(b1, W);
      var yp := Softmax(u, exp);
      var yd := Sub(yp, yt);
      var s := Step(a);
      var bd := ElemMult(s, Dot(yd, T(RemoveBias(W))));
      W := Sub(W, Scale(Div(Dot(T(b1), yd), batchSize as real), alpha));
      V := Sub(V, Scale(Div(Dot(T(x), bd), batchSize as real), alpha));
    }

    /** The held-out evaluation: calcAccuracy(ytTest, softmax(addBiasCol(reLU(xTest V)) W)). */
    method Evaluate() returns (score: real)
      requires Valid() && xTest.cols == D && 0 < ytTest.rows <= xTest.rows
      ensures score == Score(Net1(V, W))
    {
      var a := Dot(xTest, V);
      var b := ReLU(a);
      var b1 := AddBiasCol(b);
      var p := Softmax(Dot(b1, W), exp);
      score := CalcAccuracy(ytTest, p);
    }

    /** learn(): the pool starts as 0 .. M - 1; each of the `iters` passes
        draws a batch of batchSize distinct rows, gathers x and yt with the
        same index list and takes one step; every 100th pass reports the
        accuracy of the updated weights.  `batches` and `trace` record the
        draws and the weights after each pass, and `pools` the index pool
        before each draw and at the end, so that the draws are randIndex
        calls on one pool that starts as 0 .. M - 1 (see Draws). */
    method Learn() returns (reports: seq<ScoreReport>, ghost batches: seq<seq<int>>, ghost trace: seq<Net1>, ghost pools: seq<seq<int>>)
      requires Valid() && 1 <= H && 0 < batchSize <= M && M <= ytAll.rows
      requires xTest.cols == D && 0 < ytTest.rows <= xTest.rows
      modifies this
      ensures Valid()
      ensures Follows(batches, trace, iters) && Reported(reports, trace, iters)
      ensures trace[0] == Net1(old(V), old(W)) && trace[iters] == Net1(V, W)
      ensures |pools| == iters + 1 && pools[0] == Range(M) && Draws(batches, pools, M, batchSize)
    {
      var indexes := new IndexList();
      var i := 0;
      while i < M
        modifies indexes
        invariant 0 <= i <= M && indexes.elems == Range(i)
      {
        indexes.Add(i);
        i := i + 1;
      }
      RangeIsPool(M);
      reports, batches, trace := [], [], [Net1(V, W)];
      pools := [indexes.elems];
      i := 0;
      while i < iters
        invariant 0 <= i <= iters && Valid()
        invariant IsPool(indexes.elems, M)
        invariant |pools| == i + 1 && pools[0] == Range(M) && pools[i] == indexes.elems
        invariant Draws(batches, pools, M, batchSize)
        invariant Follows(batches, trace, i) && Reported(reports, trace, i)
        invariant trace[0] == Net1(old(V), old(W)) && trace[i] == Net1(V, W)
      {
        var index := RandIndex(indexes, M, batchSize);
        DrawsExtend(batches, pools, M, batchSize, index, indexes.elems);
        var x := SamplingRows(xAll, index);
        var yt := SamplingRows(ytAll, index);
        Update(x, yt);
        FollowsStep(batches, trace, i, index, Net1(V, W));
        if i % 100 == 0 {
          var score := Evaluate();
          ReportedAdd(reports, trace, i, Net1(V, W), score);
          reports := reports + [ScoreReport(i, score)];
        } else {
          ReportedSkip(reports, trace, i, Net1(V, W));
        }
        batches, trace := batches + [index], trace + [Net1(V, W)];
        pools := pools + [indexes.elems];
        i := i + 1;
      }
    }
  }

  /** The two-hidden-layer network: U is D x H, V is (H + 1) x H and W is
      (H + 1) x N. */
  class DeepLearning2 {
    const M: nat
    const D: nat
    const N: nat
    const iters: nat
    const batchSize: nat
    const alpha: real
    const xAll: Matrix
    const xTest: Matrix
    const ytAll: Matrix
    const ytTest: Matrix
    const exp: real -> real
    /** The width of both hidden layers. */
    const H: nat
    var U: Matrix
    var V: Matrix
    var W: Matrix

    /** The data have the shapes the constructor gives them. */
    ghost predicate DataValid() {
      PositiveExp(exp) && 0 < N &&
      xAll.HasShape(M, D) && ytAll.HasShape(ytAll.rows, N) &&
      xTest.Valid() && ytTest.HasShape(ytTest.rows, N)
    }

    /** ... and so do the weights. */
    ghost predicate Valid()
      reads this
    {
      DataValid() && Net2Shape(Net2(U, V, W), D, H, N)
    }

    /** The accuracy on the held-out split of the network with weights n
        (0 when the shapes do not fit, a case no report reaches). */
    ghost function Score(n: Net2): real {
      if DataValid() && Net2Shape(n, D, H, N) && xTest.cols == D && 0 < ytTest.rows <= xTest.rows
      then CategoricalAccuracy(ytTest, Net2Forward(n, xTest, exp).yp)
      else 0.0
    }

    /** After n passes, `batches` holds n batches of batchSize distinct row
        indices below M, and `trace` the n + 1 weights, each obtained from
        the one before by a step on the rows its batch names. */
    ghost predicate Follows(batches: seq<seq<int>>, trace: seq<Net2>, n: nat)
      requires DataValid() && 1 <= H && 0 < batchSize && M <= ytAll.rows
    {
      |batches| == n && |trace| == n + 1 &&
      (forall j :: 0 <= j <= n ==> Net2Shape(trace[j], D, H, N)) &&
      (forall j :: 0 <= j < n ==> |batches[j]| == batchSize && IsPool(batches[j], M)) &&
      (forall j :: 0 <= j < n ==>
        trace[j + 1] == Net2Step(trace[j], Gather(xAll, batches[j]), Gather(ytAll, batches[j]), batchSize, alpha, exp))
    }

    /** The reports of n passes: one at each checkpoint, scoring the
        weights after that pass. */
    ghost predicate Reported(reports: seq<ScoreReport>, trace: seq<Net2>, n: nat)
      requires |trace| == n + 1
    {
      |reports| == |Checkpoints(n, 100)| &&
      forall k :: 0 <= k < |reports| ==>
        reports[k].iter == Checkpoints(n, 100)[k] && reports[k].iter < n &&
        reports[k].score == Score(trace[reports[k].iter + 1])
    }

    /** One more pass extends the record of the passes. */
    lemma FollowsStep(batches: seq<seq<int>>, trace: seq<Net2>, n: nat, index: seq<int>, next: Net2)
      requires DataValid() && 1 <= H && 0 < batchSize && M <= ytAll.rows
      requires Follows(batches, trace, n) && |index| == batchSize && IsPool(index, M)
      requires next == Net2Step(trace[n], Gather(xAll, index), Gather(ytAll, index), batchSize, alpha, exp)
      ensures Follows(batches + [index], trace + [next], n + 1)
    {
      var b, t := batches + [index], trace + [next];
      assert forall j :: 0 <= j < n ==> b[j] == batches[j];
      assert forall j :: 0 <= j <= n ==> t[j] == trace[j];
    }

    /** A pass that is not a checkpoint adds no report. */
    lemma ReportedSkip(reports: seq<ScoreReport>, trace: seq<Net2>, n: nat, next: Net2)
      requires |trace| == n + 1 && Reported(reports, trace, n) && n % 100 != 0
      ensures Reported(reports, trace + [next], n + 1)
    {
      var t := trace + [next];
      assert Checkpoints(n + 1, 100) == Checkpoints(n, 100);
      forall k | 0 <= k < |reports|
        ensures Score(t[reports[k].iter + 1]) == Score(trace[reports[k].iter + 1])
      {
        assert t[reports[k].iter + 1] == trace[reports[k].iter + 1];
      }
    }

    /** A checkpoint pass adds the report scoring its weights. */
    lemma ReportedAdd(reports: seq<ScoreReport>, trace: seq<Net2>, n: nat, next: Net2, score: real)
      requires |trace| == n + 1 && Reported(reports, trace, n) && n % 100 == 0
      requires score == Score(next)
      ensures Reported(reports + [ScoreReport(n, score)], trace + [next], n + 1)
    {
      var t, r := trace + [next], reports + [ScoreReport(n, score)];
      assert Checkpoints(n + 1, 100) == Checkpoints(n, 100) + [n];
      forall k | 0 <= k < |reports|
        ensures r[k] == reports[k] && Score(t[reports[k].iter + 1]) == Score(trace[reports[k].iter + 1])
      {
        assert t[reports[k].iter + 1] == trace[reports[k].iter + 1];
      }
      assert t[n + 1] == next && r[|reports|] == ScoreReport(n, score);
    }

    /** Loads the data as DeepLearning does and draws U, V and W. */
    constructor (iters: nat, H: nat, batchSize: nat, alpha: real,
                 trainImages: Matrix, trainLabels: Vector, testImages: Matrix, testLabels: Vector,
                 exp: real -> real)
      requires PositiveExp(exp) && trainImages.Valid() && testImages.Valid()
      requires LabelsInRange(trainLabels, 10) && LabelsInRange(testLabels, 10)
      ensures Valid()
      ensures xAll == WithBiasCol(Div(trainImages, 255.0)) && xTest == WithBiasCol(Div(testImages, 255.0))
      ensures ytAll == OneHotOf(trainLabels, 10) && ytTest == OneHotOf(testLabels, 10)
      ensures M == trainImages.rows && D == trainImages.cols + 1 && N == 10
      ensures this.iters == iters && this.H == H && this.batchSize == batchSize && this.alpha == alpha
      ensures U.HasShape(D, H) && V.HasShape(H + 1, H) && W.HasShape(H + 1, N)
    {
      var x := AddBiasCol(Div(trainImages, 255.0));
      var xt := AddBiasCol(Div(testImages, 255.0));
      var y := OneHotEncode(trainLabels, 10);
      var yt := OneHotEncode(testLabels, 10);
      var u := InitW(x.cols, H);
      var v := InitW(H + 1, H);
      var w := InitW(H + 1, y.cols);
      xAll, xTest, ytAll, ytTest := x, xt, y, yt;
      M, D, N := x.rows, x.cols, y.cols;
      this.iters, this.H, this.batchSize, this.alpha, this.exp := iters, H, batchSize, alpha, exp;
      U, V, W := u, v, w;
    }

    /** One pass of the loop body on the batch x, yt: forward pass, the
        errors dd then bd, then W, V and U updated from the errors of the
        weights before the pass. */
    method Update(x: Matrix, yt: Matrix)
      requires Valid() && 1 <= H && 0 < batchSize
      requires x.HasShape(batchSize, D) && yt.HasShape(batchSize, N)
      modifies this
      ensures Valid()
      ensures Net2(U, V, W) == Net2Step(Net2(old(U), old(V), old(W)), x, yt, batchSize, alpha, exp)
    {
      var a := Dot(x, U);
      var b := ReLU(a);
      var b1 := AddBiasCol(b);
      var c := Dot(b1, V);
      var d := ReLU(c);
      var d1 := AddBiasCol(d);
      var u := Dot(d1, W);
      var yp := Softmax(u, exp);
      var yd := Sub(yp, yt);
      var sc := Step(c);
      var dd := ElemMult(sc, Dot(yd, T(RemoveBias(W))));
      var sa := Step(a);
      var bd := ElemMult(sa, Dot(dd, T(RemoveBias(V))));
      W := Sub(W, Scale(Div(Dot(T(d1), yd), batchSize as real), alpha));
      V := Sub(V, Scale(Div(Dot(T(b1), dd), batchSize as real), alpha));
      U := Sub(U, Scale(Div(Dot(T(x), bd), batchSize as real), alpha));
    }

    /** The held-out evaluation of the two-layer forward pass. */
    method Evaluate() returns (score: real)
      requires Valid() && xTest.cols == D && 0 < ytTest.rows <= xTest.rows
      ensures score == Score(Net2(U, V, W))
    {
      var a := Dot(xTest, U);
      var b := ReLU(a);
      var b1 := AddBiasCol(b);
      var c := Dot(b1, V);
      var d := ReLU(c);
      var d1 := AddBiasCol(d);
      var p := Softmax(Dot(d1, W), exp);
      score := CalcAccuracy(ytTest, p);
    }

    /** learn(): as DeepLearning.Learn, with the two-layer step. */
    method Learn() returns (reports: seq<ScoreReport>, ghost batches: seq<seq<int>>, ghost trace: seq<Net2>, ghost pools: seq<seq<int>>)
      requires Valid() && 1 <= H && 0 < batchSize <= M && M <= ytAll.rows
      requires xTest.cols == D && 0 < ytTest.rows <= xTest.rows
      modifies this
      ensures Valid()
      ensures Follows(batches, trace, iters) && Reported(reports, trace, iters)
      ensures trace[0] == Net2(old(U), old(V), old(W)) && trace[iters] == Net2(U, V, W)
      ensures |pools| == iters + 1 && pools[0] == Range(M) && Draws(batches, pools, M, batchSize)
    {
      var indexes := new IndexList();
      var i := 0;
      while i < M
        modifies indexes
        invariant 0 <= i <= M && indexes.elems == Range(i)
      {
        indexes.Add(i);
        i := i + 1;
      }
      RangeIsPool(M);
      reports, batches, trace := [], [], [Net2(U, V, W)];
      pools := [indexes.elems];
      i := 0;
      while i < iters
        invariant 0 <= i <= iters && Valid()
        invariant IsPool(indexes.elems, M)
        invariant |pools| == i + 1 && pools[0] == Range(M) && pools[i] == indexes.elems
        invariant Draws(batches, pools, M, batchSize)
        invariant Follows(batches, trace, i) && Reported(reports, trace, i)
        invariant trace[0] == Net2(old(U), old(V), old(W)) && trace[i] == Net2(U, V, W)
      {
        var index := RandIndex(indexes, M, batchSize);
        DrawsExtend(batches, pools, M, batchSize, index, indexes.elems);
        var x := SamplingRows(xAll, index);
        var yt := SamplingRows(ytAll, index);
        Update(x, yt);
        FollowsStep(batches, trace, i, index, Net2(U, V, W));
        if i % 100 == 0 {
          var score := Evaluate();
          ReportedAdd(reports, trace, i, Net2(U, V, W), score);
          reports := reports + [ScoreReport(i, score)];
        } else {
          ReportedSkip(reports, trace, i, Net2(U, V, W));
        }
        batches, trace := batches + [index], trace + [Net2(U, V, W)];
        pools := pools + [indexes.elems];
        i := i + 1;
      }
    }
  }
}
