# math_deeplearning_java: matrix utilities and training loops

This project models the core of a small Java deep-learning course:

- the helper class `Util` that the nine model classes share;
- the constructors and `learn()` loops of those classes:
  - linear regression on the Boston house prices (chapter 7);
  - binary logistic regression on two iris species (chapter 8);
  - softmax regression on all three iris species (chapter 9);
  - the one- and two-hidden-layer MNIST networks trained on mini-batches (chapter 10).

Each model class exists twice, in packages `math.deeplearning.chNN` and
`math.dl.chNN`. Both copies are modelled.

Matrices are a datatype `Matrix(rows, cols, data)` holding exact `real`
entries. Vectors are `seq<real>`. Every commons-math call the source makes
becomes a standard definition with shape preconditions:

- `add`, `subtract` and `multiply`;
- `transpose`;
- `getSubMatrix`, `getSubVector` and `getColumnVector`.

`Math.exp` is a parameter `exp: real -> real` about which only positivity is
assumed. The random choices in `randIndex`, `shuffle` and `initW` are
nondeterministic choices, so the contracts hold for every choice the
generator could make.

The Java code has loops that fill arrays or mutate lists. Those become
methods with loops, proved against specification functions. Examples:

- `addBiasCol`, `reLU`, `step`, `pow`, `mean`, `softmax`, `sampling`,
  `oneHotEncode`, `shuffle`, `randIndex` and `calcAccuracy`;
- the caller's index pool of `randIndex`, which becomes the class `IndexList`;
- the row-by-row in-place `softmax`, which works on an `array2`.

The single-expression wrappers become functions.

Each model class becomes a Dafny class. Its data are `const` fields and its
weights are `var` fields. `Learn` is proved equal to a recursive run of the
update step. Each step is written once in module `Training`:

- `LinearStep`;
- `LogisticStep`;
- `SoftmaxStep`;
- `Net1Step`;
- `Net2Step`.

The printed reports are tied to that run. There is one report at each
multiple of the cadence (`Checkpoints`), and it carries the loss or accuracy
of the right weights:

- chapter 7 reports the residual from before the update;
- chapters 8 to 10 report the weights after the update.

For the chapter 10 networks, `Learn` returns ghost records of the mini-batches
it drew and of the weights after each pass. Each batch is `batchSize`
distinct row indices below `M`. Each pass's weights are one step from the
previous weights, on the rows that batch names. A third ghost record holds
the index pool before each draw and at the end. It starts as 0..M-1, and
each batch is the successor of the previous pool under `randIndex` (the
predicate `Sampling.Draws`). So an index recurs in a later batch only after
a refill.

Modules:

- `Matrices`: the matrix datatype and the commons-math kernel;
- `MathFunctions`: the element-wise activations, `softmax`, `pow` and `mean`;
- `Utilities`: bias, extraction, one-hot and `initW`;
- `Sampling`: `randIndex`, `sampling` and `shuffle`;
- `Accuracy`: both `calcAccuracy` overloads;
- `Training`: the update equations;
- one module per model source file.

## Model

| member | source | states |
|---|---|---|
| Matrices.Range | src/main/java/math/deeplearning/common/Util.java:401-403 | the index list 0..n-1 that shuffle and learn() start from: length n, entry i is i |
| Matrices.Zeros | src/main/java/math/deeplearning/common/Util.java:431 | a freshly created r x c matrix has that shape and every entry 0.0 |
| Matrices.Col | src/main/java/math/deeplearning/ch07/LinearMultipleRegression.java:41 | getColumnVector(j) has one entry per row, entry k being a(k, j) |
| Matrices.FromArray | src/main/java/math/deeplearning/common/Util.java:171 | createRealMatrix(aA2) has the array's dimensions and entries |
| Matrices.GetData | src/main/java/math/deeplearning/common/Util.java:160 | getData() returns a fresh array of the matrix's shape whose matrix reading is the input |
| Matrices.Add | src/main/java/math/deeplearning/common/Util.java:37-39 | add of two equally shaped matrices keeps the shape and adds entrywise |
| Matrices.AddScalar | src/main/java/math/deeplearning/common/Util.java:41-43 | scalar add keeps the shape and adds b to every entry |
| Matrices.Sub | src/main/java/math/deeplearning/common/Util.java:49-51 | sub of two equally shaped matrices keeps the shape and subtracts entrywise |
| Matrices.Scale | src/main/java/math/deeplearning/common/Util.java:57-59 | scalar mult keeps the shape and multiplies every entry by b |
| Matrices.Div | src/main/java/math/deeplearning/common/Util.java:77-79 | scalar div by a non-zero b keeps the shape and divides every entry |
| Matrices.Dot | src/main/java/math/deeplearning/common/Util.java:85-87 | dot needs a.cols == b.rows, is a.rows x b.cols, entry (i, j) is row i of a times column j of b |
| Matrices.T | src/main/java/math/deeplearning/common/Util.java:111-113 | t of an r x c matrix is c x r with entry (i, j) equal to a(j, i) |
| Matrices.ZeroVector | src/main/java/math/deeplearning/ch07/LinearMultipleRegression.java:48 | createRealVector(new double[D]) has length D and all entries 0.0 |
| Matrices.AddScalarV | src/main/java/math/deeplearning/common/Util.java:45-47 | vector add of a scalar keeps the length and adds b to each entry |
| Matrices.SubV | src/main/java/math/deeplearning/common/Util.java:53-55 | vector sub of equal lengths subtracts entrywise |
| Matrices.ScaleV | src/main/java/math/deeplearning/common/Util.java:73-75 | vector mult by a scalar multiplies each entry |
| Matrices.DivV | src/main/java/math/deeplearning/common/Util.java:81-83 | vector div by a non-zero scalar divides each entry |
| Matrices.Operate | src/main/java/math/deeplearning/common/Util.java:89-91 | dot(matrix, vector) needs a.cols == length, has one entry per row, entry i is row i times the vector |
| Matrices.Extensionality | src/main/java/math/deeplearning/common/Util.java:85-113 | two matrices of one shape that agree entrywise are equal, so the entrywise contracts of the kernel determine its results |
| Matrices.TransposeInvolution | src/main/java/math/deeplearning/common/Util.java:111-113 | t(t(a)) == a |
| Matrices.InnerSymmetric | src/main/java/math/deeplearning/common/Util.java:85-91 | the row-times-column product is symmetric in its two vectors |
| Matrices.Inner | src/main/java/math/deeplearning/common/Util.java:85-91 | the entry of multiply and operate accumulated over the shared dimension; it is 0 whenever the second vector is all zeros |
| Matrices.Sum | src/main/java/math/deeplearning/common/Util.java:115-121 | the running total of mean (and of each softmax row, lines 163-166); a sum of non-negative entries is non-negative |
| Matrices.DotTranspose | src/main/java/math/deeplearning/common/Util.java:85-113 | t(dot(a, b)) == dot(t(b), t(a)) |
| Matrices.SubAddCancel | src/main/java/math/deeplearning/common/Util.java:37-51 | add(sub(a, b), b) == a: sub and add are inverse |
| MathFunctions.Relu | src/main/java/math/deeplearning/common/Util.java:178 | never negative, at least its input, and either its input or 0.0 |
| MathFunctions.StepOne | src/main/java/math/deeplearning/common/Util.java:188 | 1.0 exactly for positive input and 0.0 exactly otherwise; times its input it gives Relu |
| MathFunctions.Sigmoid | src/main/java/math/deeplearning/common/Util.java:142-144 | 1 / (1 + exp(-a)) lies strictly between 0 and 1 |
| MathFunctions.MapEntries | src/main/java/math/deeplearning/common/Util.java:93-101 | an element-wise map keeps the shape and applies f to each entry |
| MathFunctions.MapVector | src/main/java/math/deeplearning/common/Util.java:103-109 | a vector map keeps the length and applies f to each entry |
| MathFunctions.ReLUOf | src/main/java/math/deeplearning/common/Util.java:174-182 | reLU keeps the shape, keeps positive entries and sets entries <= 0 to 0.0 |
| MathFunctions.StepOf | src/main/java/math/deeplearning/common/Util.java:184-192 | step keeps the shape and is 1.0 exactly where the entry is > 0, 0.0 elsewhere |
| MathFunctions.ElemMultOf | src/main/java/math/deeplearning/common/Util.java:61-71 | elementwise mult takes its shape from a alone, entry (i, j) is a(i, j) * b(i, j); b only has to be at least as large |
| MathFunctions.Exps | src/main/java/math/deeplearning/common/Util.java:149-152 | the exponentiated row, entry by entry |
| MathFunctions.SoftmaxRow | src/main/java/math/deeplearning/common/Util.java:146-157 | softmax of a row divides exp of each entry by the row's own positive sum of exps |
| MathFunctions.SoftmaxOf | src/main/java/math/deeplearning/common/Util.java:159-172 | matrix softmax keeps the shape and applies the row softmax to each row separately |
| MathFunctions.SigmoidOf | src/main/java/math/deeplearning/common/Util.java:134-140 | vector sigmoid keeps the length, each entry is sigmoid of the input entry and lies in (0, 1) |
| MathFunctions.PowOf | src/main/java/math/deeplearning/common/Util.java:103-109 | vector pow keeps the length and raises each entry to the n-th power |
| MathFunctions.ElemMult | src/main/java/math/deeplearning/common/Util.java:61-71 | the nested loop over a's shape computes ElemMultOf(a, b) |
| MathFunctions.ReLU | src/main/java/math/deeplearning/common/Util.java:174-182 | the nested loop computes ReLUOf(a) |
| MathFunctions.Step | src/main/java/math/deeplearning/common/Util.java:184-192 | the nested loop computes StepOf(a) |
| MathFunctions.Pow | src/main/java/math/deeplearning/common/Util.java:93-101 | the nested loop raises every entry to the n-th power |
| MathFunctions.PowV | src/main/java/math/deeplearning/common/Util.java:103-109 | the loop computes PowOf(v, n) |
| MathFunctions.Mean | src/main/java/math/deeplearning/common/Util.java:115-122 | the accumulation loop returns the sum of the entries divided by their number |
| MathFunctions.SigmoidV | src/main/java/math/deeplearning/common/Util.java:134-140 | the loop computes SigmoidOf(v) |
| MathFunctions.ExpRowInPlace | src/main/java/math/deeplearning/common/Util.java:162-166 | row i of the array is exponentiated in place, the running sum is the row's sum of exps, other rows are untouched |
| MathFunctions.DivideRowInPlace | src/main/java/math/deeplearning/common/Util.java:167-169 | row i is divided by sum in place, other rows are untouched |
| MathFunctions.Softmax | src/main/java/math/deeplearning/common/Util.java:159-172 | the row-by-row in-place loop computes SoftmaxOf(a) |
| MathFunctions.ExpPositiveAt | src/main/java/math/deeplearning/common/Util.java:164 | exp is positive at every point |
| MathFunctions.ExpsPositive | src/main/java/math/deeplearning/common/Util.java:163-166 | every exponentiated entry is positive |
| MathFunctions.SumPositive | src/main/java/math/deeplearning/common/Util.java:162-166 | a non-empty row of positive entries has a positive sum, so the division at line 168 is by a non-zero value |
| MathFunctions.TermAtMostSum | src/main/java/math/deeplearning/common/Util.java:162-169 | no non-negative entry exceeds the sum of its row |
| MathFunctions.SumDivide | src/main/java/math/deeplearning/common/Util.java:167-169 | dividing every entry by s divides the sum by s |
| MathFunctions.SoftmaxRowIsDistribution | src/main/java/math/deeplearning/common/Util.java:159-172 | each softmax row sums to 1 and every entry lies in (0, 1] |
| MathFunctions.StepMarksPositiveReLU | src/main/java/math/deeplearning/common/Util.java:174-192 | step(a) is 1 exactly where reLU(a) is positive, and 0 exactly where reLU(a) is 0 |
| MathFunctions.SumOfSquaresZero | src/main/java/math/deeplearning/common/Util.java:103-122 | the sum of pow(v, 2) is non-negative, and it is zero iff every entry is zero |
| Utilities.Trunc | src/main/java/math/deeplearning/common/Util.java:374 | the (int) cast truncates toward zero: for x >= 0 the result r is the whole number with r <= x < r + 1, for x < 0 the one with r - 1 < x <= r |
| Utilities.WithBiasCol | src/main/java/math/deeplearning/common/Util.java:325-334 | addBiasCol of an r x c matrix is r x (c + 1), column 0 is all 1.0, entry (i, j + 1) is a(i, j) |
| Utilities.AddBiasCol | src/main/java/math/deeplearning/common/Util.java:325-334 | the nested loop builds WithBiasCol(a) |
| Utilities.ExtractRowCol | src/main/java/math/deeplearning/common/Util.java:340-342 | inclusive bounds: the result is (endRow - startRow + 1) x (endCol - startCol + 1) with entry (i, j) = a(startRow + i, startCol + j) |
| Utilities.RemoveBias | src/main/java/math/deeplearning/common/Util.java:336-338 | removeBias needs at least two rows, is (r - 1) x c and row i is row i + 1 of a |
| Utilities.ExtractRow | src/main/java/math/deeplearning/common/Util.java:348-350 | rows startRow..endRow inclusive with all columns |
| Utilities.ExtractCol | src/main/java/math/deeplearning/common/Util.java:352-354 | columns startCol..endCol inclusive with all rows |
| Utilities.Select | src/main/java/math/deeplearning/common/Util.java:359 | getSubMatrix(rows, cols) is |rows| x |cols| with entry (i, j) = a(rows[i], cols[j]) |
| Utilities.SelectCols | src/main/java/math/deeplearning/common/Util.java:356-360 | extractCol(a, cols) keeps all rows, and column j is column cols[j] of a |
| Utilities.ExtractCols | src/main/java/math/deeplearning/common/Util.java:356-360 | the loop over the row indices builds SelectCols(a, cols) |
| Utilities.ExtractRowCols | src/main/java/math/deeplearning/common/Util.java:344-346 | extractRowCol(a, r0, r1, cols) is extractCol(extractRow(a, r0, r1), cols), with entry (i, j) = a(r0 + i, cols[j]) |
| Utilities.SubVector | src/main/java/math/dl/ch09/MultipleLogisticRegression.java:45-46 | getSubVector(index, n) has length n with entry i = v[index + i] |
| Utilities.ExtractRowColVector | src/main/java/math/deeplearning/common/Util.java:362-364 | entries startRow..endRow inclusive of column col |
| Utilities.Extract | src/main/java/math/deeplearning/common/Util.java:366-368 | extract(v, s, e) has length e - s + 1 with entry i = v[s + i] |
| Utilities.OneHotOf | src/main/java/math/deeplearning/common/Util.java:370-377 | for labels in [0, classNum) the result is n x classNum, and row i is 1.0 at column (int) label_i and 0.0 elsewhere |
| Utilities.OneHotEncode | src/main/java/math/deeplearning/common/Util.java:370-377 | the loop over a zero matrix setting one entry per row builds OneHotOf(v, classNum) |
| Utilities.OneHotRowSumsToOne | src/main/java/math/deeplearning/common/Util.java:370-377 | each one-hot row sums to 1, and its only 1.0 is at the label's column |
| Utilities.SumOfIndicator | src/main/java/math/deeplearning/common/Util.java:372-374 | a row that is 1.0 at one column and 0.0 elsewhere sums to 1 |
| Utilities.SumOfZeros | src/main/java/math/deeplearning/common/Util.java:372 | an all-zero row sums to 0 |
| Utilities.InitW | src/main/java/math/deeplearning/common/Util.java:472-482 | initW(inDim, outDim) is an inDim x outDim matrix |
| Utilities.BiasColRoundTrip | src/main/java/math/deeplearning/common/Util.java:325-354 | dropping column 0 of addBiasCol(a) with extractCol gives back a |
| Sampling.IndexList.constructor | src/main/java/math/deeplearning/ch10/DeepLearning.java:64 | a new index pool is empty |
| Sampling.IndexList.Add | src/main/java/math/deeplearning/ch10/DeepLearning.java:65 | add appends one index and changes nothing else |
| Sampling.RandIndex | src/main/java/math/deeplearning/common/Util.java:414-428 | the draw works on the pool, or on exactly 0..total-1 when the pool holds fewer than size indices (strict test); it returns size indices, the pool shrinks by size, and result plus pool is that base as a multiset; whenever the base is duplicate-free within [0, total), in particular always after a refill, the result and the remaining pool are duplicate-free within [0, total) |
| Sampling.Gather | src/main/java/math/deeplearning/common/Util.java:430-436 | the gathered matrix is |index| x cols and row i is row index[i] of a |
| Sampling.SamplingRows | src/main/java/math/deeplearning/common/Util.java:430-436 | the row-setting loop builds Gather(a, index) |
| Sampling.Shuffle | src/main/java/math/deeplearning/common/Util.java:396-412 | the result has a's shape; input row i is written to output row dest[i]; dest is a permutation of 0..rows-1, so every output row receives exactly one input row |
| Sampling.RangeIsPool | src/main/java/math/deeplearning/common/Util.java:417 | 0..n-1 is duplicate-free and within [0, n) |
| Sampling.DistinctCountsAtMostOne | src/main/java/math/deeplearning/common/Util.java:424-425 | a duplicate-free list holds each value at most once |
| Sampling.RepeatCountsTwice | src/main/java/math/deeplearning/common/Util.java:424-425 | a value at two positions occurs at least twice |
| Sampling.SplitOfPool | src/main/java/math/deeplearning/common/Util.java:422-426 | moving entries between the result and the pool of a duplicate-free base in [0, total) leaves both duplicate-free and in range |
| Sampling.MoveOne | src/main/java/math/deeplearning/common/Util.java:407-409 | moving the entry at one position from the pool to the drawn list keeps their union |
| Sampling.RangeCovered | src/main/java/math/deeplearning/common/Util.java:406-410 | a list with the multiset of 0..n-1 contains every k < n |
| Sampling.PoolsDisjoint | src/main/java/math/deeplearning/common/Util.java:407-409 | what has been drawn and what remains in the pool share no index |
| Sampling.DrawsExtend | src/main/java/math/deeplearning/common/Util.java:414-428 | one more randIndex call on the pool the last call left extends the record of draws |
| Sampling.DrawsKeepPools | src/main/java/math/deeplearning/common/Util.java:414-428 | calls that start from a duplicate-free pool in [0, total) keep every later pool, and every batch, duplicate-free in [0, total) |
| Sampling.PoolShrinks | src/main/java/math/deeplearning/common/Util.java:414-428 | between refills (the pool holds at least size indices at every call after j up to k) the pool only shrinks, and call k draws from what call j left |
| Sampling.NoRepeatWithoutRefill | src/main/java/math/deeplearning/common/Util.java:414-428 | an index recurs in a later batch only after a refill: with no refill at calls j+1..k, batches j and k share no index |
| Sampling.GatherReadsOnlyListedRows | src/main/java/math/deeplearning/common/Util.java:432-434 | sampling only consults the listed rows: matrices that agree on them give the same result |
| Sampling.ShuffleKeepsLabels | src/main/java/math/deeplearning/ch09/MultipleLogisticRegression.java:41-52 | shuffling rows keeps every label of a column within [0, classNum) |
| Accuracy.BinaryHits | src/main/java/math/deeplearning/common/Util.java:442-448 | the number of hits is at most the number of targets |
| Accuracy.BinaryAccuracy | src/main/java/math/deeplearning/common/Util.java:438-450 | the vector accuracy lies in [0, 1] |
| Accuracy.CalcAccuracyV | src/main/java/math/deeplearning/common/Util.java:438-450 | the counting loop returns BinaryAccuracy(t, p): hits are p <= 0.5 with t == 0 or p > 0.5 with t == 1 |
| Accuracy.Best | src/main/java/math/deeplearning/common/Util.java:457-464 | the running max that starts at 0.0 is at least every entry, and is 0.0 or one of the entries |
| Accuracy.Picked | src/main/java/math/deeplearning/common/Util.java:457-464 | the chosen column is 0 when no entry exceeds 0.0, otherwise the first column reaching the maximum |
| Accuracy.ArgMaxHits | src/main/java/math/deeplearning/common/Util.java:456-468 | the number of hit rows is at most the number of rows counted |
| Accuracy.CategoricalAccuracy | src/main/java/math/deeplearning/common/Util.java:452-470 | the matrix accuracy lies in [0, 1] |
| Accuracy.ScanRow | src/main/java/math/deeplearning/common/Util.java:457-464 | the strict-> scan of the first n entries returns Picked of that prefix |
| Accuracy.CalcAccuracy | src/main/java/math/deeplearning/common/Util.java:452-470 | the nested loop returns CategoricalAccuracy(t, p) |
| Accuracy.UnitRatio | src/main/java/math/deeplearning/common/Util.java:449 | a hit count over a positive total lies in [0, 1] |
| Accuracy.BinaryHitsAll | src/main/java/math/deeplearning/common/Util.java:438-450 | every position counts iff the hit count equals the length |
| Accuracy.BinaryHitsNone | src/main/java/math/deeplearning/common/Util.java:438-450 | no position counts iff the hit count is 0 |
| Accuracy.PickedIsFirstMax | src/main/java/math/deeplearning/common/Util.java:457-464 | the picked column satisfies the independent first-maximum characterisation |
| Accuracy.FirstMaxUnique | src/main/java/math/deeplearning/common/Util.java:457-464 | that characterisation names one column only |
| Accuracy.PickedOneHot | src/main/java/math/deeplearning/common/Util.java:457-464 | on a one-hot row the scan picks the hot column |
| Accuracy.OneHotHitsAll | src/main/java/math/deeplearning/common/Util.java:456-468 | scoring one-hot targets against themselves hits every row |
| Accuracy.OneHotSelfAccuracy | src/main/java/math/deeplearning/common/Util.java:452-470 | the accuracy of one-hot targets against themselves is 1 |
| Accuracy.OneHotEncodingIsOneHot | src/main/java/math/deeplearning/common/Util.java:370-377 | oneHotEncode produces one-hot rows |
| Accuracy.TwoRowExample | src/main/java/math/deeplearning/common/Util.java:452-470 | concrete 2 x 2 predictions score 1 against targets whose 1.0 sits at each row's maximum and 0 against the swapped targets |
| Accuracy.NonPositiveRowPicksColumnZero | src/main/java/math/deeplearning/common/Util.java:457-464 | a prediction row whose entries are all <= 0 picks column 0 |
| Training.CheckpointsExactly | src/main/java/math/deeplearning/ch10/DeepLearning.java:67-91 | an iteration is reported iff it is below n and a multiple of the cadence |
| Training.Checkpoints | src/main/java/math/deeplearning/ch10/DeepLearning.java:87 | the iterations i < n with i % every == 0 are exactly 0, every, 2 every, ..., and there are ceil(n / every) of them |
| Training.CheckpointsIncreasing | src/main/java/math/deeplearning/ch10/DeepLearning.java:67-91 | reports come in strictly increasing iteration order, each below n |
| Training.Net1Forward | src/main/java/math/deeplearning/ch10/DeepLearning.java:74-78 | the forward pass conforms: a is batch x H, b1 is batch x (H + 1), yp is batch x N |
| Training.Net1HiddenError | src/main/java/math/deeplearning/ch10/DeepLearning.java:81 | step(a) times yd removeBias(W)^t is batch x H |
| Training.Descend | src/main/java/math/deeplearning/ch10/DeepLearning.java:83-84 | W - alpha (input^t delta) / batchSize keeps W's shape, entry (i, j) being w(i, j) minus alpha times column i of input times column j of delta over batchSize |
| Training.Net1Step | src/main/java/math/deeplearning/ch10/DeepLearning.java:74-84 | one pass keeps V D x H and W (H + 1) x N |
| Training.Net2Forward | src/main/java/math/deeplearning/ch10/DeepLearning2.java:74-81 | a and c are batch x H, b1 and d1 are batch x (H + 1), yp is batch x N |
| Training.Net2Errors | src/main/java/math/deeplearning/ch10/DeepLearning2.java:83-85 | dd and bd are both batch x H, like step(c) and step(a) |
| Training.Net2Step | src/main/java/math/deeplearning/ch10/DeepLearning2.java:74-89 | one pass keeps U D x H, V (H + 1) x H and W (H + 1) x N |
| Training.SoftmaxPredict | src/main/java/math/deeplearning/ch09/MultipleLogisticRegression.java:84 | softmax(xTest W) has one row per input row and one column per class |
| Training.SoftmaxStep | src/main/java/math/deeplearning/ch09/MultipleLogisticRegression.java:76-80 | W - alpha x^t (softmax(x W) - yt) / M keeps W's shape |
| Training.SoftmaxRun | src/main/java/math/deeplearning/ch09/MultipleLogisticRegression.java:74-81 | n passes keep W's shape |
| Training.DescendV | src/main/java/math/deeplearning/ch07/LinearMultipleRegression.java:68 | w - alpha x^t yd / M keeps the length, entry j being w[j] minus alpha times column j of x times yd over M |
| Training.Residual | src/main/java/math/deeplearning/ch07/LinearMultipleRegression.java:64-66 | yd has one entry per row, entry i being row i of x times w minus yt[i] |
| Training.LinearStep | src/main/java/math/deeplearning/ch07/LinearMultipleRegression.java:64-68 | one pass keeps the weight length |
| Training.LinearRun | src/main/java/math/deeplearning/ch07/LinearMultipleRegression.java:62-69 | n passes keep the weight length |
| Training.HalfMeanSquare | src/main/java/math/deeplearning/ch07/LinearMultipleRegression.java:72 | the printed loss mean(yd^2) / 2 is non-negative |
| Training.SigmoidPredict | src/main/java/math/deeplearning/ch08/BinaryLogisticRegression.java:73 | sigmoid(x W) has one entry per row, each in (0, 1) |
| Training.LogisticStep | src/main/java/math/deeplearning/ch08/BinaryLogisticRegression.java:73-77 | W - alpha x^t (sigmoid(x W) - yt) / M keeps the length |
| Training.LogisticRun | src/main/java/math/deeplearning/ch08/BinaryLogisticRegression.java:71-78 | n passes keep the length |
| Training.Ones | src/main/java/math/deeplearning/ch08/BinaryLogisticRegression.java:56 | the initial weights have length D and are all 1.0 |
| Training.OnesMatrix | src/main/java/math/deeplearning/ch09/MultipleLogisticRegression.java:59 | the initial weights are D x k and all 1.0 |
| Training.DescendZeroError | src/main/java/math/deeplearning/ch07/LinearMultipleRegression.java:68 | a zero residual leaves the weights unchanged |
| Training.LinearRunStaysFixed | src/main/java/math/deeplearning/ch07/LinearMultipleRegression.java:62-69 | weights that one update leaves unchanged stay unchanged through any number of passes |
| Training.LinearFixedPoint | src/main/java/math/deeplearning/ch07/LinearMultipleRegression.java:62-69 | weights that fit the targets exactly are a fixed point of any number of passes |
| Training.LinearRunZeroRate | src/main/java/math/deeplearning/ch07/LinearMultipleRegression.java:62-69 | with learning rate 0 linear regression never moves |
| Training.LogisticRunZeroRate | src/main/java/math/deeplearning/ch08/BinaryLogisticRegression.java:71-78 | with learning rate 0 logistic regression never moves |
| Training.DescendZeroRate | src/main/java/math/deeplearning/ch10/DeepLearning.java:83-84 | a matrix update with learning rate 0 leaves the weights unchanged |
| Training.SoftmaxRunZeroRate | src/main/java/math/deeplearning/ch09/MultipleLogisticRegression.java:74-81 | with learning rate 0 softmax regression never moves |
| Training.Net1StepZeroRate | src/main/java/math/deeplearning/ch10/DeepLearning.java:74-84 | with learning rate 0 a one-hidden-layer pass leaves V and W unchanged |
| Training.Net2StepZeroRate | src/main/java/math/deeplearning/ch10/DeepLearning2.java:74-89 | with learning rate 0 a two-hidden-layer pass leaves U, V and W unchanged |
| Training.LossZeroIffFit | src/main/java/math/deeplearning/ch07/LinearMultipleRegression.java:64-72 | the printed loss is 0 iff x W equals yt |
| Training.LinearStepExample | src/main/java/math/deeplearning/ch07/LinearMultipleRegression.java:64-68 | one pass on a concrete 3 x 2 problem gives the hand-computed weights |
| MathDeeplearningCh07.LinearMultipleRegression.ReportedSkip | src/main/java/math/deeplearning/ch07/LinearMultipleRegression.java:71 | an iteration that is not a multiple of 100 adds no report |
| MathDeeplearningCh07.LinearMultipleRegression.ReportedAdd | src/main/java/math/deeplearning/ch07/LinearMultipleRegression.java:71-72 | a multiple of 100 adds one report with the loss of the weights before that iteration's update |
| MathDeeplearningCh07.LinearMultipleRegression.constructor | src/main/java/math/deeplearning/ch07/LinearMultipleRegression.java:32-49 | x is the bias column followed by columns 5 and 12 of the data, yt is column 13, M = 506, D = 3, W is all ones |
| MathDeeplearningCh07.LinearMultipleRegression.Loss | src/main/java/math/deeplearning/ch07/LinearMultipleRegression.java:72 | mean(pow(yd, 2)) / 2 is HalfMeanSquare(yd) |
| MathDeeplearningCh07.LinearMultipleRegression.Learn | src/main/java/math/deeplearning/ch07/LinearMultipleRegression.java:61-74 | exactly iters passes: W ends as LinearRun(old W, iters); the reports are the pre-update losses at each multiple of 100 |
| MathDlCh07.LinearSingleRegression.ReportedSkip | src/main/java/math/dl/ch07/LinearSingleRegression.java:68 | an iteration that is not a multiple of 100 adds no report |
| MathDlCh07.LinearSingleRegression.ReportedAdd | src/main/java/math/dl/ch07/LinearSingleRegression.java:68-69 | a multiple of 100 adds the loss of the weights before that iteration's update |
| MathDlCh07.LinearSingleRegression.constructor | src/main/java/math/dl/ch07/LinearSingleRegression.java:36-48 | x is the bias column followed by column 5, yt is column 13, M = 506, D = 2, w is all ones |
| MathDlCh07.LinearSingleRegression.Loss | src/main/java/math/dl/ch07/LinearSingleRegression.java:69 | mean(pow(yd, 2)) / 2 is HalfMeanSquare(yd) |
| MathDlCh07.LinearSingleRegression.Learn | src/main/java/math/dl/ch07/LinearSingleRegression.java:58-71 | exactly iters passes: w ends as LinearRun(old w, iters); pre-update losses at each multiple of 100 |
| MathDeeplearningCh08.BinaryLogisticRegression.ReportedSkip | src/main/java/math/deeplearning/ch08/BinaryLogisticRegression.java:80 | an iteration that is not a multiple of 10 adds no report |
| MathDeeplearningCh08.BinaryLogisticRegression.ReportedAdd | src/main/java/math/deeplearning/ch08/BinaryLogisticRegression.java:80-84 | a multiple of 10 adds the test accuracy of the weights after that iteration's update |
| MathDeeplearningCh08.BinaryLogisticRegression.constructor | src/main/java/math/deeplearning/ch08/BinaryLogisticRegression.java:36-57 | rows 0..99 are shuffled (a row permutation); x and xTest are rows 0..69 and 70..99 of columns 0..1 with the bias column; yt and ytTest are column 4 of the same rows; M = 70, D = 3, W is all ones |
| MathDeeplearningCh08.BinaryLogisticRegression.Learn | src/main/java/math/deeplearning/ch08/BinaryLogisticRegression.java:69-86 | exactly iters passes: W ends as LogisticRun(old W, iters); reports at each multiple of 10 score the updated weights |
| MathDlCh08.BinaryLogisticRegression.ReportedSkip | src/main/java/math/dl/ch08/BinaryLogisticRegression.java:69 | an iteration that is not a multiple of 10 adds no report |
| MathDlCh08.BinaryLogisticRegression.ReportedAdd | src/main/java/math/dl/ch08/BinaryLogisticRegression.java:69-72 | a multiple of 10 adds the test accuracy of the updated weights |
| MathDlCh08.BinaryLogisticRegression.constructor | src/main/java/math/dl/ch08/BinaryLogisticRegression.java:37-51 | as in package deeplearning: the same shuffle, splits, M = 70, D = 3, w all ones |
| MathDlCh08.BinaryLogisticRegression.Learn | src/main/java/math/dl/ch08/BinaryLogisticRegression.java:61-74 | exactly iters passes: w ends as LogisticRun(old w, iters); reports at each multiple of 10 score the updated weights |
| MathDeeplearningCh09.MultipleLogisticRegression.ReportedSkip | src/main/java/math/deeplearning/ch09/MultipleLogisticRegression.java:83 | an iteration that is not a multiple of 10 adds no report |
| MathDeeplearningCh09.MultipleLogisticRegression.ReportedAdd | src/main/java/math/deeplearning/ch09/MultipleLogisticRegression.java:83-87 | a multiple of 10 adds the test accuracy of the updated weights |
| MathDeeplearningCh09.MultipleLogisticRegression.constructor | src/main/java/math/deeplearning/ch09/MultipleLogisticRegression.java:36-60 | the 150 rows are shuffled (a row permutation); x and xTest are rows 0..74 and 75..149 of columns 0 and 2 with the bias column; yt and ytTest are the species of the same rows one-hot in 3 classes; M = 75, D = 3, W is 3 x 3 all ones |
| MathDeeplearningCh09.MultipleLogisticRegression.Learn | src/main/java/math/deeplearning/ch09/MultipleLogisticRegression.java:72-89 | exactly iters passes: W ends as SoftmaxRun(old W, iters); reports at each multiple of 10 score the updated weights |
| MathDlCh09.MultipleLogisticRegression.ReportedSkip | src/main/java/math/dl/ch09/MultipleLogisticRegression.java:70 | an iteration that is not a multiple of 10 adds no report |
| MathDlCh09.MultipleLogisticRegression.ReportedAdd | src/main/java/math/dl/ch09/MultipleLogisticRegression.java:70-73 | a multiple of 10 adds the test accuracy of the updated weights |
| MathDlCh09.MultipleLogisticRegression.constructor | src/main/java/math/dl/ch09/MultipleLogisticRegression.java:36-52 | as in package deeplearning, with the labels taken as getSubVector(0, 75) and getSubVector(75, 75) of the species column |
| MathDlCh09.MultipleLogisticRegression.Learn | src/main/java/math/dl/ch09/MultipleLogisticRegression.java:62-75 | exactly iters passes: W ends as SoftmaxRun(old W, iters); reports at each multiple of 10 score the updated weights |
| MathDlCh09.LabelSplit | src/main/java/math/dl/ch09/MultipleLogisticRegression.java:41-46 | the two label sub-vectors concatenate to the whole species column and are the same rows 0..74 and 75..149 that x and xTest take |
| MathDeeplearningCh10.DeepLearning.FollowsStep | src/main/java/math/deeplearning/ch10/DeepLearning.java:67-84 | a pass on a freshly drawn batch extends the record of batches and weights |
| MathDeeplearningCh10.DeepLearning.ReportedSkip | src/main/java/math/deeplearning/ch10/DeepLearning.java:87 | an iteration that is not a multiple of 100 adds no report |
| MathDeeplearningCh10.DeepLearning.ReportedAdd | src/main/java/math/deeplearning/ch10/DeepLearning.java:87-91 | a multiple of 100 adds the test accuracy of the weights after that pass |
| MathDeeplearningCh10.DeepLearning.constructor | src/main/java/math/deeplearning/ch10/DeepLearning.java:36-53 | xAll and xTest are the images over 255 with the bias column, the labels are one-hot in 10 classes, V is D x H and W is (H + 1) x N |
| MathDeeplearningCh10.DeepLearning.Update | src/main/java/math/deeplearning/ch10/DeepLearning.java:74-84 | the loop body computes Net1Step of the weights before it, so bd uses the old W |
| MathDeeplearningCh10.DeepLearning.Evaluate | src/main/java/math/deeplearning/ch10/DeepLearning.java:88-90 | the held-out evaluation returns the accuracy of the current weights |
| MathDeeplearningCh10.DeepLearning.Learn | src/main/java/math/deeplearning/ch10/DeepLearning.java:62-93 | exactly iters passes, each on batchSize distinct rows below M with x and yt gathered by the same list; the weights follow Net1Step pass by pass; reports at each multiple of 100 score the updated weights; the draws are successive randIndex calls on one pool that starts as 0..M-1 (Draws), so indices repeat across batches only after a refill |
| MathDeeplearningCh10.DeepLearning2.FollowsStep | src/main/java/math/deeplearning/ch10/DeepLearning2.java:67-89 | a pass on a freshly drawn batch extends the record of batches and weights |
| MathDeeplearningCh10.DeepLearning2.ReportedSkip | src/main/java/math/deeplearning/ch10/DeepLearning2.java:92 | an iteration that is not a multiple of 100 adds no report |
| MathDeeplearningCh10.DeepLearning2.ReportedAdd | src/main/java/math/deeplearning/ch10/DeepLearning2.java:92-96 | a multiple of 100 adds the test accuracy of the weights after that pass |
| MathDeeplearningCh10.DeepLearning2.constructor | src/main/java/math/deeplearning/ch10/DeepLearning2.java:36-55 | U is D x H, V is (H + 1) x H and W is (H + 1) x N; the data as in DeepLearning |
| MathDeeplearningCh10.DeepLearning2.Update | src/main/java/math/deeplearning/ch10/DeepLearning2.java:74-89 | the loop body computes Net2Step of the weights before it, so dd and bd use the old W and V |
| MathDeeplearningCh10.DeepLearning2.Evaluate | src/main/java/math/deeplearning/ch10/DeepLearning2.java:93-95 | the held-out evaluation returns the accuracy of the current weights |
| MathDeeplearningCh10.DeepLearning2.Learn | src/main/java/math/deeplearning/ch10/DeepLearning2.java:62-98 | exactly iters passes on aligned batches of distinct rows; the weights follow Net2Step pass by pass; reports at each multiple of 100 score the updated weights; the draws are successive randIndex calls on one pool that starts as 0..M-1 (Draws) |
| MathDlCh10.DeepLearning.FollowsStep | src/main/java/math/dl/ch10/DeepLearning.java:65-82 | a pass on a freshly drawn batch extends the record of batches and weights |
| MathDlCh10.DeepLearning.ReportedSkip | src/main/java/math/dl/ch10/DeepLearning.java:85 | an iteration that is not a multiple of 100 adds no report |
| MathDlCh10.DeepLearning.ReportedAdd | src/main/java/math/dl/ch10/DeepLearning.java:85-89 | a multiple of 100 adds the test accuracy of the weights after that pass |
| MathDlCh10.DeepLearning.constructor | src/main/java/math/dl/ch10/DeepLearning.java:35-53 | V is D x H and W is (H + 1) x N; the data as in package deeplearning |
| MathDlCh10.DeepLearning.Update | src/main/java/math/dl/ch10/DeepLearning.java:72-82 | the loop body computes Net1Step of the weights before it |
| MathDlCh10.DeepLearning.Evaluate | src/main/java/math/dl/ch10/DeepLearning.java:86-88 | the held-out evaluation returns the accuracy of the current weights |
| MathDlCh10.DeepLearning.Learn | src/main/java/math/dl/ch10/DeepLearning.java:60-91 | exactly iters passes on aligned batches of distinct rows; the weights follow Net1Step pass by pass; reports at each multiple of 100 score the updated weights; the draws are successive randIndex calls on one pool that starts as 0..M-1 (Draws) |

## Left out

- Data loading is not modelled: `download`, `loadBoston`, `loadIris`, `loadMnistImage` and `loadMnistLabel` (file, gzip and network I/O). Each constructor receives the loaded matrices as arguments.
- Console output is not modelled: `print`, every `main` method and `System.out`. Each report is the pair (iteration, value) that would be printed.
- `crossEntropy` is not modelled, since it needs `Math.log`. The classifiers' reports carry only the accuracy, not the cross-entropy that is printed beside it.
- `sigmoid(RealMatrix)` is not modelled because no model class calls it. The scalar and vector forms are modelled.
- `Math.exp` is an uninterpreted positive function. `Math.sqrt` and the Gaussian draw in `initW` are not modelled.
- Utilities.InitW: states only the inDim x outDim shape, because the entry values are random.
- Java `double` is modelled as exact `real`, so rounding, overflow to Infinity and NaN are out of scope.
- Matrices.Div: requires a non-zero divisor, where Java would produce Infinity or NaN.
- Matrices.DivV: requires a non-zero divisor, where Java would produce Infinity or NaN.
- MathFunctions.Mean: requires a non-empty vector, where Java returns NaN.
- Accuracy.CalcAccuracyV: requires at least one target, where Java returns NaN.
- Accuracy.CalcAccuracy: requires at least one target row, where Java returns NaN.
- MathFunctions.Pow: the exponent is a natural number, where the source takes a `double`. The source only ever calls `pow(., 2)`.
- Sampling.RandIndex: requires that the refilled pool can supply `size` indices. The source throws from `rand.nextInt(0)` otherwise.
- The concrete sequence produced by `java.util.Random` is not modelled. Every random choice is a nondeterministic choice.
- The commons-math exceptions are not modelled. A dimension mismatch, an empty matrix or an index out of range becomes a precondition instead.
- Java `int` overflow is not modelled. Counters and sizes are `nat`.
- The `math.deeplearning.ch07`–`ch10` classes call `trans(...)`. The `Util.java` modelled here does not define it, so it is read as `t`, the transpose.
- The `math.dl` classes import `math.dl.common.Util`, which is not part of this model. It is taken to behave like `math.deeplearning.common.Util`.
- The chapter 7 constructors take the 506 x 14 Boston matrix as an argument. `M` is 506 by that requirement.
- The ghost `Score`, `ScoreAfter` and `LossAfter` functions of the model classes return 0.0 for weights of the wrong shape. No report can reach that case, because `Learn` keeps the shapes valid.
