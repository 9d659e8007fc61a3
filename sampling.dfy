/** The random-index utilities of Util.java: the without-replacement
    mini-batch sampler randIndex, which draws from a caller-owned index pool
    and refills it when it runs short; row gathering (sampling); and row
    shuffling.  Each rand.nextInt(n) is a nondeterministic choice in [0, n),
    so every contract holds for every sequence of draws. */
module Sampling {
  import opened Matrices
  import opened Utilities

  /** No index occurs twice. */
  predicate Distinct(s: seq<int>) {
    forall i, j :: 0 <= i < j < |s| ==> s[i] != s[j]
  }

  /** Every index lies in [0, total). */
  predicate InRange(s: seq<int>, total: int) {
    forall i :: 0 <= i < |s| ==> 0 <= s[i] < total
  }

  /** A duplicate-free list of indices into [0, total). */
  predicate IsPool(s: seq<int>, total: int) {
    Distinct(s) && InRange(s, total)
  }

  /** A java.util.List<Integer> that its owner passes by reference. */
  class IndexList {
    var elems: seq<int>

    /** new ArrayList<>() */
    constructor ()
      ensures elems == []
    {
      elems := [];
    }

    /** List.add(x) */
    method Add(x: int)
      modifies this
      ensures elems == old(elems) + [x]
    {
      elems := elems + [x];
    }
  }

  /** The list of indices a draw of `size` takes from: the pool itself, or
      0..total-1 when the pool holds fewer than `size` entries. */
  function DrawBase(pool: seq<int>, total: nat, size: nat): seq<int> {
    if |pool| < size then Range(total) else pool
  }

  /** randIndex(indexes, total, size).  If the pool holds fewer than `size`
      indices it is first cleared and refilled with 0..total-1; then `size`
      times an entry at a random position is moved from the pool to the
      result.  The source fails (rand.nextInt(0)) when even the refilled
      pool is too small, hence the precondition. */
  method RandIndex(indexes: IndexList, total: nat, size: nat) returns (list: seq<int>)
    requires size <= |indexes.elems| || size <= total
    modifies indexes
    ensures var base := DrawBase(old(indexes.elems), total, size);
      |list| == size && |indexes.elems| == |base| - size &&
      multiset(list) + multiset(indexes.elems) == multiset(base)
    ensures IsPool(DrawBase(old(indexes.elems), total, size), total) ==> IsPool(list, total) && IsPool(indexes.elems, total)
    ensures |old(indexes.elems)| < size ==> IsPool(list, total) && IsPool(indexes.elems, total)
    ensures IsPool(old(indexes.elems), total) ==> IsPool(list, total) && IsPool(indexes.elems, total)
  {
    if |indexes.elems| < size {
      indexes.elems := [];
      var i := 0;
      while i < total
        invariant 0 <= i <= total
        invariant indexes.elems == Range(i)
      {
        indexes.elems := indexes.elems + [i];
        i := i + 1;
      }
    }
    ghost var base := indexes.elems;
    assert base == DrawBase(old(indexes.elems), total, size);
    list := [];
    var i := 0;
    while i < size
      invariant 0 <= i <= size
      invariant |list| == i && |indexes.elems| == |base| - i
      invariant multiset(list) + multiset(indexes.elems) == multiset(base)
    {
      var index :| 0 <= index < |indexes.elems|;
      var pool := indexes.elems;
      assert pool == pool[..index] + [pool[index]] + pool[index + 1..];
      list := list + [pool[index]];
      indexes.elems := pool[..index] + pool[index + 1..];
      i := i + 1;
    }
    RangeIsPool(total);
    if IsPool(base, total) {
      SplitOfPool(list, indexes.elems, base, total);
    }
  }

  /** The record of successive randIndex calls on one pool: pools[0] is the
      pool before the first call, and call j draws batches[j] from
      DrawBase(pools[j]) and leaves pools[j + 1] behind. */
  ghost predicate Draws(batches: seq<seq<int>>, pools: seq<seq<int>>, total: nat, size: nat) {
    |pools| == |batches| + 1 &&
    forall j :: 0 <= j < |batches| ==>
      |batches[j]| == size &&
      multiset(batches[j]) + multiset(pools[j + 1]) == multiset(DrawBase(pools[j], total, size))
  }

  /** One more call extends the record. */
  lemma DrawsExtend(batches: seq<seq<int>>, pools: seq<seq<int>>, total: nat, size: nat, b: seq<int>, p: seq<int>)
    requires Draws(batches, pools, total, size)
    requires |b| == size && multiset(b) + multiset(p) == multiset(DrawBase(pools[|batches|], total, size))
    ensures Draws(batches + [b], pools + [p], total, size)
  {
    var bs, ps := batches + [b], pools + [p];
    forall j | 0 <= j < |bs|
      ensures |bs[j]| == size &&
        multiset(bs[j]) + multiset(ps[j + 1]) == multiset(DrawBase(ps[j], total, size))
    {
      if j < |batches| {
        assert bs[j] == batches[j] && ps[j] == pools[j] && ps[j + 1] == pools[j + 1];
      }
    }
  }

  /** Draws that start from a pool keep a pool, and every batch is
      duplicate-free within [0, total). */
  lemma {:induction false} DrawsKeepPools(batches: seq<seq<int>>, pools: seq<seq<int>>, total: nat, size: nat, j: nat)
    requires Draws(batches, pools, total, size) && IsPool(pools[0], total) && j <= |batches|
    ensures IsPool(pools[j], total)
    ensures j < |batches| ==> IsPool(batches[j], total) && IsPool(DrawBase(pools[j], total, size), total)
  {
    if j > 0 {
      DrawsKeepPools(batches, pools, total, size, j - 1);
      SplitOfPool(batches[j - 1], pools[j], DrawBase(pools[j - 1], total, size), total);
    }
    if j < |batches| {
      RangeIsPool(total);
      SplitOfPool(batches[j], pools[j + 1], DrawBase(pools[j], total, size), total);
    }
  }

  /** Without a refill between calls j + 1 and k, the pool only shrinks:
      whatever call k draws was already in the pool that call j left. */
  lemma {:induction false} PoolShrinks(batches: seq<seq<int>>, pools: seq<seq<int>>, total: nat, size: nat, j: nat, k: nat)
    requires Draws(batches, pools, total, size) && j < k < |batches|
    requires forall m :: j < m <= k ==> size <= |pools[m]|
    ensures multiset(batches[k]) <= multiset(pools[j + 1])
    ensures multiset(pools[k]) <= multiset(pools[j + 1])
  {
    if k > j + 1 {
      PoolShrinks(batches, pools, total, size, j, k - 1);
      assert DrawBase(pools[k - 1], total, size) == pools[k - 1];
      assert multiset(batches[k - 1]) + multiset(pools[k]) == multiset(pools[k - 1]);
    }
    assert DrawBase(pools[k], total, size) == pools[k];
    assert multiset(batches[k]) + multiset(pools[k + 1]) == multiset(pools[k]);
  }

  /** randIndex repeats an index across calls only after a refill: when
      no call after j up to k refills the pool, batches j and k are
      disjoint. */
  lemma NoRepeatWithoutRefill(batches: seq<seq<int>>, pools: seq<seq<int>>, total: nat, size: nat, j: nat, k: nat)
    requires Draws(batches, pools, total, size) && IsPool(pools[0], total) && j < k < |batches|
    requires forall m :: j < m <= k ==> size <= |pools[m]|
    ensures forall x :: x in batches[j] ==> x !in batches[k]
  {
    DrawsKeepPools(batches, pools, total, size, j);
    PoolsDisjoint(batches[j], pools[j + 1], DrawBase(pools[j], total, size));
    PoolShrinks(batches, pools, total, size, j, k);
    forall x | x in batches[j]
      ensures x !in batches[k]
    {
      assert x !in multiset(pools[j + 1]);
      assert x !in multiset(batches[k]);
    }
  }

  /** The rows of `a` at the listed indices, in order. */
  function Gather(a: Matrix, index: seq<int>): (r: Matrix)
    requires a.Valid() && InRange(index, a.rows)
    ensures r.HasShape(|index|, a.cols)
    ensures forall i :: 0 <= i < |index| ==> r.data[i] == a.data[index[i]]
  {
    Matrix(|index|, a.cols, seq(|index|, i requires 0 <= i < |index| => a.data[index[i]]))
  }

  /** sampling(aM, index): an |index| x cols matrix whose row i is set to
      row index[i] of `a`. */
  method SamplingRows(a: Matrix, index: seq<int>) returns (r: Matrix)
    requires a.Valid() && InRange(index, a.rows)
    ensures r == Gather(a, index)
  {
    var rM := Zeros(|index|, a.cols).data;
    var i := 0;
    while i < |index|
      invariant 0 <= i <= |index|
      invariant |rM| == |index| && forall k :: 0 <= k < |index| ==> |rM[k]| == a.cols
      invariant forall k :: 0 <= k < i ==> rM[k] == a.data[index[k]]
    {
      rM := rM[i := a.data[index[i]]];
      i := i + 1;
    }
    r := Matrix(|index|, a.cols, rM);
  }

  /** shuffle(aM): row i of `a` is written to the output row at a random
      position of the shrinking list of rows not yet written.  The ghost
      `dest` records where each input row went. */
  method Shuffle(a: Matrix) returns (r: Matrix, ghost dest: seq<int>)
    requires a.Valid()
    ensures r.HasShape(a.rows, a.cols)
    ensures |dest| == a.rows && IsPool(dest, a.rows)
    ensures forall k :: 0 <= k < a.rows ==> k in dest
    ensures forall i :: 0 <= i < a.rows ==> r.data[dest[i]] == a.data[i]
  {
    var retM := Zeros(a.rows, a.cols).data;
    var indexes := [];
    var i := 0;
    while i < a.rows
      invariant 0 <= i <= a.rows
      invariant indexes == Range(i)
    {
      indexes := indexes + [i];
      i := i + 1;
    }
    ghost var base := indexes;
    RangeIsPool(a.rows);
    dest := [];
    i := 0;
    while i < a.rows
      invariant 0 <= i <= a.rows
      invariant |retM| == a.rows && forall k :: 0 <= k < a.rows ==> |retM[k]| == a.cols
      invariant |dest| == i && |indexes| == a.rows - i
      invariant multiset(dest) + multiset(indexes) == multiset(base)
      invariant InRange(dest, a.rows)
      invariant forall k :: 0 <= k < i ==> retM[dest[k]] == a.data[k]
    {
      var index :| 0 <= index < |indexes|;
      var target := indexes[index];
      SplitOfPool(dest, indexes, base, a.rows);
      PoolsDisjoint(dest, indexes, base);
      assert target in indexes;
      assert forall k :: 0 <= k < i ==> dest[k] != target;
      MoveOne(dest, indexes, base, index);
      retM := retM[target := a.data[i]];
      dest := dest + [target];
      indexes := indexes[..index] + indexes[index + 1..];
      i := i + 1;
    }
    SplitOfPool(dest, indexes, base, a.rows);
    RangeCovered(dest, a.rows);
    r := Matrix(a.rows, a.cols, retM);
  }

  // ---------------------------------------------------------------
  // Properties
  // ---------------------------------------------------------------

  /** 0..n-1 is a pool. */
  lemma RangeIsPool(n: nat)
    ensures IsPool(Range(n), n)
  {
  }

  /** In a duplicate-free list every value occurs at most once. */
  lemma {:induction false} DistinctCountsAtMostOne(s: seq<int>, x: int)
    requires Distinct(s)
    ensures multiset(s)[x] <= 1
  {
    if |s| > 0 {
      var init := s[..|s| - 1];
      assert s == init + [s[|s| - 1]];
      DistinctCountsAtMostOne(init, x);
      if x == s[|s| - 1] {
        assert x !in init;
      }
    }
  }

  /** A value at two different positions occurs at least twice. */
  lemma RepeatCountsTwice(s: seq<int>, i: nat, j: nat)
    requires i < j < |s| && s[i] == s[j]
    ensures multiset(s)[s[i]] >= 2
  {
    assert s == s[..j] + [s[j]] + s[j + 1..];
    assert s[i] in s[..j];
  }

  /** Splitting a pool into two lists, as a draw does, leaves two pools. */
  lemma SplitOfPool(a: seq<int>, b: seq<int>, base: seq<int>, total: int)
    requires multiset(a) + multiset(b) == multiset(base) && IsPool(base, total)
    ensures IsPool(a, total) && IsPool(b, total)
  {
    forall i | 0 <= i < |a|
      ensures 0 <= a[i] < total
    {
      assert a[i] in multiset(base);
    }
    forall i | 0 <= i < |b|
      ensures 0 <= b[i] < total
    {
      assert b[i] in multiset(base);
    }
    forall i, j | 0 <= i < j < |a|
      ensures a[i] != a[j]
    {
      if a[i] == a[j] {
        RepeatCountsTwice(a, i, j);
        DistinctCountsAtMostOne(base, a[i]);
      }
    }
    forall i, j | 0 <= i < j < |b|
      ensures b[i] != b[j]
    {
      if b[i] == b[j] {
        RepeatCountsTwice(b, i, j);
        DistinctCountsAtMostOne(base, b[i]);
      }
    }
  }

  /** Moving the entry at `index` from the pool to the end of the drawn
      list keeps the two together equal to the base as a multiset. */
  lemma MoveOne(drawn: seq<int>, pool: seq<int>, base: seq<int>, index: nat)
    requires multiset(drawn) + multiset(pool) == multiset(base) && index < |pool|
    ensures multiset(drawn + [pool[index]]) + multiset(pool[..index] + pool[index + 1..]) == multiset(base)
  {
    assert pool == pool[..index] + [pool[index]] + pool[index + 1..];
  }

  /** A list holding as many entries as 0..n-1 with exactly the same
      multiset contains every index below n. */
  lemma RangeCovered(s: seq<int>, n: nat)
    requires multiset(s) == multiset(Range(n))
    ensures forall k :: 0 <= k < n ==> k in s
  {
    forall k | 0 <= k < n
      ensures k in s
    {
      assert Range(n)[k] == k;
      assert k in multiset(Range(n));
    }
  }

  /** The two parts of a split pool share no index. */
  lemma PoolsDisjoint(a: seq<int>, b: seq<int>, base: seq<int>)
    requires multiset(a) + multiset(b) == multiset(base) && Distinct(base)
    ensures forall x :: x in a ==> x !in b
  {
    forall x | x in a
      ensures x !in b
    {
      DistinctCountsAtMostOne(base, x);
    }
  }

  /** sampling reads only the rows that `index` lists. */
  lemma GatherReadsOnlyListedRows(a: Matrix, b: Matrix, index: seq<int>)
    requires a.Valid() && b.HasShape(a.rows, a.cols) && InRange(index, a.rows)
    requires forall k :: 0 <= k < |index| ==> a.data[index[k]] == b.data[index[k]]
    ensures Gather(a, index) == Gather(b, index)
  {
    assert Gather(a, index).data == Gather(b, index).data;
  }

  /** Shuffled rows are input rows, so a label column whose labels all lie
      in [0, classNum) keeps that property. */
  lemma ShuffleKeepsLabels(a: Matrix, r: Matrix, dest: seq<int>, col: nat, classNum: int)
    requires a.Valid() && r.HasShape(a.rows, a.cols) && col < a.cols
    requires |dest| == a.rows && IsPool(dest, a.rows)
    requires forall k :: 0 <= k < a.rows ==> k in dest
    requires forall i :: 0 <= i < a.rows ==> r.data[dest[i]] == a.data[i]
    requires LabelsInRange(Col(a, col), classNum)
    ensures LabelsInRange(Col(r, col), classNum)
  {
    forall k | 0 <= k < r.rows
      ensures 0 <= Trunc(Col(r, col)[k]) < classNum
    {
      assert k in dest;
      var i :| 0 <= i < |dest| && dest[i] == k;
      assert Col(r, col)[k] == Col(a, col)[i];
    }
  }
}
