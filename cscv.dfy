/**
 * Combinatorially symmetric cross-validation (`cscv_pbo`): the excess return over SPY is
 * cut into contiguous blocks, every choice of half the blocks is an in-sample set with
 * the other half out of sample, and the probability of backtest overfitting is the share
 * of the best in-sample splits whose out-of-sample Sharpe is at or below the median.
 * The rank correlation between the two Sharpe lists needs scipy's Spearman and is not
 * part of this model.
 */
module Cscv {
  import opened Numerics
  import opened Sorting
  import opened Resampling
  import opened Validation

  const DefaultBlocks: nat := 16

  // ---------------------------------------------------------------------------------
  // Blocks

  lemma BlockBefore(i: nat, nBlocks: nat, blockSize: nat)
    requires i < nBlocks
    ensures i * blockSize + blockSize <= nBlocks * blockSize
  {
    MulMonotone(i + 1, nBlocks, blockSize);
  }

  /** Block i spans [i·size, (i+1)·size), except the last, which runs to the end. */
  function BlockEnd(i: nat, nBlocks: nat, blockSize: nat, n: nat): nat
  {
    if i + 1 < nBlocks then i * blockSize + blockSize else n
  }

  /** The blocks of the excess series, `excess_returns[start:end]` for each i. */
  function CscvBlocks(excess: seq<real>, nBlocks: nat, blockSize: nat): (blocks: seq<seq<real>>)
    requires nBlocks * blockSize <= |excess|
    ensures |blocks| == nBlocks
  {
    seq(nBlocks, i requires 0 <= i < nBlocks =>
      BlockBefore(i, nBlocks, blockSize);
      excess[i * blockSize..BlockEnd(i, nBlocks, blockSize, |excess|)])
  }

  /** The block loop of `cscv_pbo`, appending one slice per block. */
  method BuildBlocks(excess: seq<real>, nBlocks: nat, blockSize: nat) returns (blocks: seq<seq<real>>)
    requires nBlocks * blockSize <= |excess|
    ensures blocks == CscvBlocks(excess, nBlocks, blockSize)
  {
    ghost var all := CscvBlocks(excess, nBlocks, blockSize);
    blocks := [];
    for i := 0 to nBlocks
      invariant blocks == all[..i]
    {
      BlockBefore(i, nBlocks, blockSize);
      var start := i * blockSize;
      var end := if i < nBlocks - 1 then start + blockSize else |excess|;
      PrefixGrows(all, i);
      blocks := blocks + [excess[start..end]];
    }
  }

  /** The sequences laid end to end (`np.concatenate`). */
  function Concat(parts: seq<seq<real>>): seq<real>
    decreases |parts|
  {
    if |parts| == 0 then [] else Concat(parts[..|parts| - 1]) + parts[|parts| - 1]
  }

  lemma NextMultiple(k: nat, blockSize: nat)
    requires k > 0
    ensures k * blockSize == (k - 1) * blockSize + blockSize
  {
  }

  /** A block before the last one is exactly `blockSize` months from `i * blockSize`. */
  lemma InnerBlock(excess: seq<real>, nBlocks: nat, blockSize: nat, i: nat)
    requires nBlocks * blockSize <= |excess| && i + 1 < nBlocks
    ensures i * blockSize + blockSize <= |excess|
    ensures CscvBlocks(excess, nBlocks, blockSize)[i] == excess[i * blockSize..i * blockSize + blockSize]
  {
    BlockBefore(i, nBlocks, blockSize);
  }

  lemma ConcatStep(parts: seq<seq<real>>, k: nat)
    requires 0 < k <= |parts|
    ensures Concat(parts[..k]) == Concat(parts[..k - 1]) + parts[k - 1]
  {
    assert parts[..k][..k - 1] == parts[..k - 1];
  }

  lemma {:induction false} BlocksPrefix(excess: seq<real>, nBlocks: nat, blockSize: nat, k: nat)
    requires nBlocks * blockSize <= |excess| && k < nBlocks
    ensures k * blockSize <= |excess|
    ensures Concat(CscvBlocks(excess, nBlocks, blockSize)[..k]) == excess[..k * blockSize]
    decreases k
  {
    BlockBefore(k, nBlocks, blockSize);
    if k > 0 {
      var blocks := CscvBlocks(excess, nBlocks, blockSize);
      BlocksPrefix(excess, nBlocks, blockSize, k - 1);
      var lo := (k - 1) * blockSize;
      NextMultiple(k, blockSize);
      InnerBlock(excess, nBlocks, blockSize, k - 1);
      ConcatStep(blocks, k);
      assert excess[..lo] + excess[lo..lo + blockSize] == excess[..lo + blockSize];
    }
  }

  /** The blocks laid end to end give back the excess series, in order. */
  lemma BlocksCover(excess: seq<real>, nBlocks: nat, blockSize: nat)
    requires nBlocks > 0 && nBlocks * blockSize <= |excess|
    ensures Concat(CscvBlocks(excess, nBlocks, blockSize)) == excess
  {
    var blocks := CscvBlocks(excess, nBlocks, blockSize);
    var last := nBlocks - 1;
    BlocksPrefix(excess, nBlocks, blockSize, last);
    var cut := last * blockSize;
    assert blocks[last] == excess[cut..];
    assert blocks[..nBlocks] == blocks;
    assert Concat(blocks) == Concat(blocks[..last]) + blocks[last];
    assert excess[..cut] + excess[cut..] == excess;
  }

  /** Every block but the last has `n // n_blocks` months; the last one takes the remainder as well. */
  lemma BlockLengths(excess: seq<real>, nBlocks: nat, blockSize: nat)
    requires nBlocks > 0 && nBlocks * blockSize <= |excess|
    ensures forall i :: 0 <= i < nBlocks - 1 ==> |CscvBlocks(excess, nBlocks, blockSize)[i]| == blockSize
    ensures |CscvBlocks(excess, nBlocks, blockSize)[nBlocks - 1]| == |excess| - (nBlocks - 1) * blockSize
    ensures |CscvBlocks(excess, nBlocks, blockSize)[nBlocks - 1]| >= blockSize
  {
    var blocks := CscvBlocks(excess, nBlocks, blockSize);
    forall i | 0 <= i < nBlocks - 1
      ensures |blocks[i]| == blockSize
    {
      BlockBefore(i, nBlocks, blockSize);
    }
    var last := nBlocks - 1;
    BlockBefore(last, nBlocks, blockSize);
    assert |blocks[last]| == |excess| - last * blockSize;
  }

  // ---------------------------------------------------------------------------------
  // Splits

  /** The binomial coefficient, by Pascal's rule. */
  function Choose(n: nat, k: nat): nat
    decreases n
  {
    if k == 0 then 1 else if n == 0 then 0 else Choose(n - 1, k - 1) + Choose(n - 1, k)
  }

  lemma {:induction false} ChoosePositive(n: nat, k: nat)
    requires k <= n
    ensures Choose(n, k) >= 1
    decreases n
  {
    if k > 0 {
      ChoosePositive(n - 1, k - 1);
    }
  }

  function Prepend(x: nat, cs: seq<seq<nat>>): (r: seq<seq<nat>>)
    ensures |r| == |cs|
  {
    seq(|cs|, i requires 0 <= i < |cs| => [x] + cs[i])
  }

  /** `itertools.combinations(range(lo, hi), k)`, in its lexicographic order. */
  function Combinations(lo: nat, hi: nat, k: nat): seq<seq<nat>>
    decreases hi - lo, k
  {
    if k == 0 then [[]]
    else if lo >= hi then []
    else Prepend(lo, Combinations(lo + 1, hi, k - 1)) + Combinations(lo + 1, hi, k)
  }

  /** An increasing choice of indices from [lo, hi). */
  predicate IncreasingWithin(c: seq<nat>, lo: nat, hi: nat)
  {
    (forall j :: 0 <= j < |c| ==> lo <= c[j] < hi)
    && (forall i, j :: 0 <= i < j < |c| ==> c[i] < c[j])
  }

  /** There are C(hi - lo, k) combinations. */
  lemma {:induction false} CombinationsCount(lo: nat, hi: nat, k: nat)
    requires lo <= hi
    ensures |Combinations(lo, hi, k)| == Choose(hi - lo, k)
    decreases hi - lo, k
  {
    if k > 0 && lo < hi {
      CombinationsCount(lo + 1, hi, k - 1);
      CombinationsCount(lo + 1, hi, k);
    }
  }

  /** Each combination is an increasing choice of k indices from [lo, hi). */
  lemma {:induction false} CombinationsShape(lo: nat, hi: nat, k: nat)
    ensures forall i :: 0 <= i < |Combinations(lo, hi, k)| ==>
              |Combinations(lo, hi, k)[i]| == k && IncreasingWithin(Combinations(lo, hi, k)[i], lo, hi)
    decreases hi - lo, k
  {
    if k > 0 && lo < hi {
      var with := Combinations(lo + 1, hi, k - 1);
      var without := Combinations(lo + 1, hi, k);
      var all := Combinations(lo, hi, k);
      CombinationsShape(lo + 1, hi, k - 1);
      CombinationsShape(lo + 1, hi, k);
      forall i | 0 <= i < |all|
        ensures |all[i]| == k && IncreasingWithin(all[i], lo, hi)
      {
        if i < |with| {
          PrependIncreasing(lo, with[i], hi);
        } else {
          assert all[i] == without[i - |with|];
        }
      }
    }
  }

  lemma PrependIncreasing(lo: nat, c: seq<nat>, hi: nat)
    requires lo < hi && IncreasingWithin(c, lo + 1, hi)
    ensures IncreasingWithin([lo] + c, lo, hi)
  {
  }

  /** `tuple(i for i in range(n_blocks) if i not in train_idx)`, counting up from lo. */
  function Complement(train: seq<nat>, lo: nat, n: nat): (test: seq<nat>)
    ensures forall x :: x in test <==> lo <= x < n && x !in train
    ensures IncreasingWithin(test, lo, n)
    decreases n - lo
  {
    if lo >= n then []
    else if lo in train then Complement(train, lo + 1, n)
    else [lo] + Complement(train, lo + 1, n)
  }

  /** The blocks named by the indices, laid end to end. */
  function Gather(blocks: seq<seq<real>>, idx: seq<nat>): seq<real>
    requires forall j :: 0 <= j < |idx| ==> idx[j] < |blocks|
    decreases |idx|
  {
    if |idx| == 0 then []
    else Gather(blocks, idx[..|idx| - 1]) + blocks[idx[|idx| - 1]]
  }

  lemma {:induction false} GatherNonEmpty(blocks: seq<seq<real>>, idx: seq<nat>)
    requires forall j :: 0 <= j < |idx| ==> idx[j] < |blocks| && |blocks[idx[j]]| > 0
    requires |idx| > 0
    ensures |Gather(blocks, idx)| > 0
  {
  }

  // ---------------------------------------------------------------------------------
  // The overfitting probability

  datatype SplitResult = SplitResult(trainSharpe: real, testSharpe: real)

  function TrainSharpeOf(r: SplitResult): real { r.trainSharpe }

  function TestSharpes(results: seq<SplitResult>): (ts: seq<real>)
    ensures |ts| == |results|
  {
    seq(|results|, i requires 0 <= i < |results| => results[i].testSharpe)
  }

  /** `max(1, len(results_list) // 10)`: how many of the best in-sample splits are examined. */
  function TopCount(splits: nat): (t: nat)
    ensures t >= 1
    ensures splits >= 1 ==> t <= splits
  {
    if splits / 10 > 1 then splits / 10 else 1
  }

  /**
   * The share of the `TopCount` best in-sample splits (stable order, descending in-sample
   * Sharpe) whose out-of-sample Sharpe is at or below the median one.
   */
  function Pbo(results: seq<SplitResult>, median: real): (pbo: real)
    requires |results| > 0
    ensures 0.0 <= pbo <= 1.0
  {
    var ranked := SortDesc(results, TrainSharpeOf);
    var top := TopCount(|results|);
    Fraction(seq(top, i requires 0 <= i < top => ranked[i].testSharpe <= median))
  }

  datatype CscvResult = CscvResult(nCombinations: nat, pbo: real, medianTestSharpe: real)

  /** Which blocks may be used: each has at least two months. */
  predicate UsableBlocks(blocks: seq<seq<real>>)
  {
    forall b :: 0 <= b < |blocks| ==> |blocks[b]| >= 2
  }

  /** The in-sample and out-of-sample Sharpe ratios of one split. */
  function ScoreSplit(lib: Lib, blocks: seq<seq<real>>, train: seq<nat>): (r: SplitResult)
    requires UsableBlocks(blocks) && 0 < |train| < |blocks|
    requires IncreasingWithin(train, 0, |blocks|)
    ensures r.trainSharpe == WindowSharpe(lib, Gather(blocks, train))
  {
    var test := Complement(train, 0, |blocks|);
    TestNonEmpty(train, |blocks|);
    GatherNonEmpty(blocks, train);
    GatherNonEmpty(blocks, test);
    SplitResult(WindowSharpe(lib, Gather(blocks, train)), WindowSharpe(lib, Gather(blocks, test)))
  }

  /** The splits of `n_blocks` blocks, in `itertools` order, with their two Sharpe ratios. */
  function SplitResults(lib: Lib, blocks: seq<seq<real>>): (rs: seq<SplitResult>)
    requires |blocks| >= 2 && UsableBlocks(blocks)
    ensures |rs| == Choose(|blocks|, |blocks| / 2) && |rs| > 0
  {
    var splits := Combinations(0, |blocks|, |blocks| / 2);
    CombinationsCount(0, |blocks|, |blocks| / 2);
    CombinationsShape(0, |blocks|, |blocks| / 2);
    ChoosePositive(|blocks|, |blocks| / 2);
    seq(|splits|, i requires 0 <= i < |splits| => ScoreSplit(lib, blocks, splits[i]))
  }

  lemma {:induction false} AtLeastIndex(c: seq<nat>, n: nat, i: nat)
    requires IncreasingWithin(c, 0, n) && i < |c|
    ensures c[i] >= i
    decreases i
  {
    if i > 0 {
      AtLeastIndex(c, n, i - 1);
    }
  }

  /** An increasing choice of fewer than n indices from [0, n) leaves some index out. */
  ghost function MissesOne(c: seq<nat>, n: nat): (b: nat)
    requires IncreasingWithin(c, 0, n) && |c| < n
    ensures b < n && b !in c
  {
    if exists j :: 0 <= j < |c| && c[j] != j then
      var j := FirstMoved(c, n, 0);
      AtLeastIndex(c, n, j);
      assert forall i :: 0 <= i < |c| ==> c[i] != j by {
        forall i | 0 <= i < |c|
          ensures c[i] != j
        {
          if i > j {
            AtLeastIndex(c, n, j);
          }
        }
      }
      j
    else
      |c|
  }

  /** Half the blocks in sample always leaves some out of sample. */
  lemma TestNonEmpty(c: seq<nat>, n: nat)
    requires IncreasingWithin(c, 0, n) && |c| < n
    ensures |Complement(c, 0, n)| > 0
  {
    var b := MissesOne(c, n);
    assert b in Complement(c, 0, n);
  }

  /** The first position j at or after `from` where c[j] != j, when every earlier one is in place. */
  ghost function FirstMoved(c: seq<nat>, n: nat, from: nat): (j: nat)
    requires IncreasingWithin(c, 0, n) && from <= |c|
    requires forall i :: 0 <= i < from ==> c[i] == i
    requires exists j :: from <= j < |c| && c[j] != j
    ensures j < |c| && c[j] != j && forall i :: 0 <= i < j ==> c[i] == i
    decreases |c| - from
  {
    if c[from] != from then from else FirstMoved(c, n, from + 1)
  }

  /**
   * The outcome of `cscv_pbo` on an excess series long enough for blocks of two months:
   * C(n_blocks, n_blocks // 2) splits, the median out-of-sample Sharpe, and the
   * probability of backtest overfitting, which lies in [0, 1].
   */
  function CscvOutcome(lib: Lib, excess: seq<real>, nBlocks: nat): (r: CscvResult)
    requires nBlocks >= 2 && |excess| / nBlocks >= 2
    ensures r.nCombinations == Choose(nBlocks, nBlocks / 2)
    ensures 0.0 <= r.pbo <= 1.0
  {
    var blockSize := |excess| / nBlocks;
    BlockLengths(excess, nBlocks, blockSize);
    var results := SplitResults(lib, CscvBlocks(excess, nBlocks, blockSize));
    var median := lib.median(TestSharpes(results));
    CscvResult(|results|, Pbo(results, median), median)
  }

  /** The split loop of `cscv_pbo`: one pair of Sharpe ratios per split, in `itertools` order. */
  method ScoreSplits(lib: Lib, blocks: seq<seq<real>>) returns (results: seq<SplitResult>)
    requires |blocks| >= 2 && UsableBlocks(blocks)
    ensures results == SplitResults(lib, blocks)
  {
    var splits := Combinations(0, |blocks|, |blocks| / 2);
    ghost var all := SplitResults(lib, blocks);
    CombinationsShape(0, |blocks|, |blocks| / 2);
    CombinationsCount(0, |blocks|, |blocks| / 2);
    results := [];
    for i := 0 to |splits|
      invariant results == all[..i]
    {
      var split := ScoreSplit(lib, blocks, splits[i]);
      PrefixGrows(all, i);
      results := results + [split];
    }
    assert results == all;
  }

  /** `cscv_pbo`: `None` when the common history gives blocks of fewer than two months. */
  method CscvPbo(lib: Lib, strategy: seq<real>, benchmark: seq<real>, nBlocks: nat) returns (result: Option<CscvResult>)
    requires nBlocks >= 2
    ensures result.None? <==> |Excess(strategy, benchmark)| / nBlocks < 2
    ensures result.Some? ==> result.value == CscvOutcome(lib, Excess(strategy, benchmark), nBlocks)
  {
    var excess := Excess(strategy, benchmark);
    var blockSize := |excess| / nBlocks;
    if blockSize < 2 {
      return None;
    }
    var blocks := BuildBlocks(excess, nBlocks, blockSize);
    BlockLengths(excess, nBlocks, blockSize);
    var results := ScoreSplits(lib, blocks);
    var median := lib.median(TestSharpes(results));
    result := Some(CscvResult(|results|, Pbo(results, median), median));
  }
}
