/**
 * The two randomised tests of the robustness battery, with their random draws passed in:
 * the block bootstrap of a return series (block start offsets drawn from [0, n - block])
 * and the sign-flip permutation test of the excess return over SPY (sign vectors over
 * {-1, 1}).  The generator itself and its seeding are not modelled.
 */
module Resampling {
  import opened Numerics
  import opened Metrics

  const DefaultBlockSize: nat := 12

  /** `int(np.ceil(n / block_size))`: the number of blocks that cover n months. */
  function BlockCount(n: nat, blockSize: nat): (c: nat)
    requires blockSize > 0
    ensures c * blockSize >= n
    ensures c > 0 ==> (c - 1) * blockSize < n
  {
    (n + blockSize - 1) / blockSize
  }

  /** Every drawn start leaves room for a whole block (`randint(0, n - block_size + 1)`). */
  predicate StartsInRange(n: nat, blockSize: nat, starts: seq<int>)
  {
    forall j :: 0 <= j < |starts| ==> 0 <= starts[j] && starts[j] + blockSize <= n
  }

  /** The drawn blocks laid end to end. */
  function Blocks(rs: seq<real>, blockSize: nat, starts: seq<int>): (b: seq<real>)
    requires StartsInRange(|rs|, blockSize, starts)
    ensures |b| == |starts| * blockSize
    decreases |starts|
  {
    if |starts| == 0 then []
    else
      var s := starts[|starts| - 1];
      Blocks(rs, blockSize, starts[..|starts| - 1]) + rs[s..s + blockSize]
  }

  lemma MulMonotone(a: nat, b: nat, c: nat)
    requires a <= b
    ensures a * c <= b * c
  {
    assert b * c == a * c + (b - a) * c;
  }

  /** Block j of m ends inside the first m blocks. */
  lemma BlockFits(j: nat, m: nat, blockSize: nat, o: nat)
    requires j < m && o < blockSize
    ensures j * blockSize + o < m * blockSize
  {
    var d := m - j;
    assert m * blockSize == j * blockSize + d * blockSize;
    MulMonotone(1, d, blockSize);
  }

  /** Month o of the j-th drawn block sits at position j * block + o of the laid-out blocks. */
  lemma {:induction false} BlocksAt(rs: seq<real>, blockSize: nat, starts: seq<int>, j: int, o: int)
    requires StartsInRange(|rs|, blockSize, starts)
    requires 0 <= j < |starts| && 0 <= o < blockSize
    ensures j * blockSize + o < |starts| * blockSize
    ensures Blocks(rs, blockSize, starts)[j * blockSize + o] == rs[starts[j] + o]
    decreases |starts|
  {
    BlockFits(j, |starts|, blockSize, o);
    var m := |starts| - 1;
    var before := starts[..m];
    assert StartsInRange(|rs|, blockSize, before);
    if j < m {
      BlockFits(j, m, blockSize, o);
      BlocksAt(rs, blockSize, before, j, o);
    }
  }

  /** One bootstrap sample: the blocks laid end to end and cut to the original length. */
  function BlockSample(rs: seq<real>, blockSize: nat, starts: seq<int>): (sample: seq<real>)
    requires blockSize > 0 && StartsInRange(|rs|, blockSize, starts) && |starts| == BlockCount(|rs|, blockSize)
    ensures |sample| == |rs|
  {
    Blocks(rs, blockSize, starts)[..|rs|]
  }

  /**
   * A sample has exactly as many months as the series, and each of its months is the
   * matching month of the block drawn for that stretch of the sample.
   */
  lemma BlockSampleAt(rs: seq<real>, blockSize: nat, starts: seq<int>, j: int, o: int)
    requires blockSize > 0 && StartsInRange(|rs|, blockSize, starts) && |starts| == BlockCount(|rs|, blockSize)
    requires 0 <= j && 0 <= o < blockSize && j * blockSize + o < |rs|
    ensures j < |starts|
    ensures BlockSample(rs, blockSize, starts)[j * blockSize + o] == rs[starts[j] + o]
  {
    if j >= |starts| {
      MulMonotone(|starts|, j, blockSize);
    }
    BlocksAt(rs, blockSize, starts, j, o);
  }

  /** The sampling loop: extend by each drawn block, then keep the first n months. */
  method DrawSample(rs: seq<real>, blockSize: nat, starts: seq<int>) returns (sample: seq<real>)
    requires blockSize > 0 && StartsInRange(|rs|, blockSize, starts) && |starts| == BlockCount(|rs|, blockSize)
    ensures sample == BlockSample(rs, blockSize, starts)
  {
    var sampled: seq<real> := [];
    for j := 0 to |starts|
      invariant StartsInRange(|rs|, blockSize, starts[..j])
      invariant sampled == Blocks(rs, blockSize, starts[..j])
    {
      assert starts[..j + 1][..j] == starts[..j];
      sampled := sampled + rs[starts[j]..starts[j] + blockSize];
    }
    assert starts[..|starts|] == starts;
    sample := sampled[..|rs|];
  }

  /** The Sharpe ratio and maximum drawdown of every bootstrap sample, and the share of samples with a Sharpe above 1. */
  datatype BootstrapResult = BootstrapResult(sharpes: seq<real>, maxDds: seq<real>, probSharpeAbove1: real)

  /** The Sharpe ratio `calc_metrics` gives each round's sample. */
  function BootstrapSharpes(lib: Lib, rs: seq<real>, blockSize: nat, draws: seq<seq<int>>): (sharpes: seq<real>)
    requires 0 < blockSize <= |rs|
    requires forall i :: 0 <= i < |draws| ==>
               StartsInRange(|rs|, blockSize, draws[i]) && |draws[i]| == BlockCount(|rs|, blockSize)
    ensures |sharpes| == |draws|
    ensures forall i :: 0 <= i < |draws| ==> sharpes[i] == Sharpe(lib, BlockSample(rs, blockSize, draws[i]))
  {
    seq(|draws|, i requires 0 <= i < |draws| => Sharpe(lib, BlockSample(rs, blockSize, draws[i])))
  }

  /** The maximum drawdown `calc_metrics` gives each round's sample. */
  function BootstrapDrawdowns(rs: seq<real>, blockSize: nat, draws: seq<seq<int>>): (maxDds: seq<real>)
    requires 0 < blockSize <= |rs|
    requires forall i :: 0 <= i < |draws| ==>
               StartsInRange(|rs|, blockSize, draws[i]) && |draws[i]| == BlockCount(|rs|, blockSize)
    ensures |maxDds| == |draws|
    ensures forall i :: 0 <= i < |draws| ==> maxDds[i] == MaxDrawdown(BlockSample(rs, blockSize, draws[i]))
  {
    seq(|draws|, i requires 0 <= i < |draws| => MaxDrawdown(BlockSample(rs, blockSize, draws[i])))
  }

  /** No bootstrap sample has a positive maximum drawdown. */
  lemma BootstrapDrawdownsNonPositive(rs: seq<real>, blockSize: nat, draws: seq<seq<int>>)
    requires 0 < blockSize <= |rs|
    requires forall i :: 0 <= i < |draws| ==>
               StartsInRange(|rs|, blockSize, draws[i]) && |draws[i]| == BlockCount(|rs|, blockSize)
    ensures forall i :: 0 <= i < |draws| ==> BootstrapDrawdowns(rs, blockSize, draws)[i] <= 0.0
  {
    forall i | 0 <= i < |draws|
      ensures BootstrapDrawdowns(rs, blockSize, draws)[i] <= 0.0
    {
      MaxDrawdownNonPositive(BlockSample(rs, blockSize, draws[i]));
    }
  }

  /** Which of the values lie strictly above the threshold. */
  function Above(xs: seq<real>, threshold: real): (hits: seq<bool>)
    ensures |hits| == |xs|
    ensures forall i :: 0 <= i < |xs| ==> (hits[i] <==> xs[i] > threshold)
  {
    seq(|xs|, i requires 0 <= i < |xs| => xs[i] > threshold)
  }

  /** One round of the bootstrap: draw the sample and take the Sharpe ratio and maximum drawdown `calc_metrics` reports for it. */
  method ScoreSample(lib: Lib, rs: seq<real>, blockSize: nat, starts: seq<int>) returns (sharpe: real, maxDd: real)
    requires 0 < blockSize <= |rs|
    requires StartsInRange(|rs|, blockSize, starts) && |starts| == BlockCount(|rs|, blockSize)
    ensures sharpe == Sharpe(lib, BlockSample(rs, blockSize, starts))
    ensures maxDd == MaxDrawdown(BlockSample(rs, blockSize, starts))
  {
    var sample := DrawSample(rs, blockSize, starts);
    var metrics := RobustMetrics(lib, sample);
    sharpe := metrics.value.sharpe;
    maxDd := metrics.value.maxDd;
  }

  /**
   * `block_bootstrap` with the draws of each round passed in.  The script needs at least
   * one block's worth of months, since otherwise no start can be drawn.
   */
  method BlockBootstrap(lib: Lib, rs: seq<real>, blockSize: nat, draws: seq<seq<int>>) returns (result: BootstrapResult)
    requires 0 < blockSize <= |rs| && |draws| > 0
    requires forall i :: 0 <= i < |draws| ==>
               StartsInRange(|rs|, blockSize, draws[i]) && |draws[i]| == BlockCount(|rs|, blockSize)
    ensures result.sharpes == BootstrapSharpes(lib, rs, blockSize, draws)
    ensures result.maxDds == BootstrapDrawdowns(rs, blockSize, draws)
    ensures result.probSharpeAbove1 == Fraction(Above(result.sharpes, 1.0))
  {
    ghost var allSharpes := BootstrapSharpes(lib, rs, blockSize, draws);
    ghost var allMaxDds := BootstrapDrawdowns(rs, blockSize, draws);
    var sharpes: seq<real> := [];
    var maxDds: seq<real> := [];
    for i := 0 to |draws|
      invariant sharpes == allSharpes[..i]
      invariant maxDds == allMaxDds[..i]
    {
      var sharpe, maxDd := ScoreSample(lib, rs, blockSize, draws[i]);
      PrefixGrows(allSharpes, i);
      PrefixGrows(allMaxDds, i);
      sharpes := sharpes + [sharpe];
      maxDds := maxDds + [maxDd];
    }
    assert allSharpes[..|draws|] == allSharpes;
    assert allMaxDds[..|draws|] == allMaxDds;
    result := BootstrapResult(sharpes, maxDds, Fraction(Above(sharpes, 1.0)));
  }

  // ---------------------------------------------------------------------------------
  // Sign-flip permutation test

  /** The strategy's excess over the benchmark on their common prefix. */
  function Excess(strategy: seq<real>, benchmark: seq<real>): (e: seq<real>)
    ensures |e| == if |strategy| <= |benchmark| then |strategy| else |benchmark|
  {
    var n := if |strategy| <= |benchmark| then |strategy| else |benchmark|;
    seq(n, k requires 0 <= k < n => strategy[k] - benchmark[k])
  }

  /** A vector of random signs, each -1 or 1. */
  predicate SignVector(signs: seq<int>)
  {
    forall k :: 0 <= k < |signs| ==> signs[k] == -1 || signs[k] == 1
  }

  /** The excess returns with their signs flipped as drawn. */
  function Flipped(excess: seq<real>, signs: seq<int>): (f: seq<real>)
    requires |signs| == |excess|
    ensures |f| == |excess|
  {
    seq(|excess|, k requires 0 <= k < |excess| => excess[k] * (signs[k] as real))
  }

  /** The mean of the excess under each drawn sign vector. */
  function SimulatedMeans(excess: seq<real>, signs: seq<seq<int>>): (means: seq<real>)
    requires |excess| > 0
    requires forall i :: 0 <= i < |signs| ==> |signs[i]| == |excess| && SignVector(signs[i])
    ensures |means| == |signs|
  {
    seq(|signs|, i requires 0 <= i < |signs| => Mean(Flipped(excess, signs[i])))
  }

  /** Which of the values reach the threshold. */
  function AtLeast(xs: seq<real>, threshold: real): (hits: seq<bool>)
    ensures |hits| == |xs|
    ensures forall i :: 0 <= i < |xs| ==> (hits[i] <==> xs[i] >= threshold)
  {
    seq(|xs|, i requires 0 <= i < |xs| => xs[i] >= threshold)
  }

  datatype PermutationResult = PermutationResult(observedMean: Option<real>, pValue: real,
                                                 significant005: bool, significant001: bool)

  /**
   * `monte_carlo_permutation_test`: the share of sign-flipped means at or above the observed
   * mean excess.  With no common months the observed mean is numpy's NaN, every comparison
   * with it is false, and the p-value is 0.
   */
  method PermutationTest(strategy: seq<real>, benchmark: seq<real>, signs: seq<seq<int>>) returns (result: PermutationResult)
    requires |signs| > 0
    requires forall i :: 0 <= i < |signs| ==> |signs[i]| == |Excess(strategy, benchmark)| && SignVector(signs[i])
    ensures 0.0 <= result.pValue <= 1.0
    ensures result.significant005 <==> result.pValue < 0.05
    ensures result.significant001 <==> result.pValue < 0.01
    ensures result.observedMean.None? <==> Excess(strategy, benchmark) == []
    ensures result.observedMean.None? ==> result.pValue == 0.0
    ensures result.observedMean.Some? ==>
              && result.observedMean.value == Mean(Excess(strategy, benchmark))
              && result.pValue == Fraction(AtLeast(SimulatedMeans(Excess(strategy, benchmark), signs), result.observedMean.value))
  {
    var excess := Excess(strategy, benchmark);
    if |excess| == 0 {
      return PermutationResult(None, 0.0, true, true);
    }
    var observed := Mean(excess);
    var simulated: seq<real> := [];
    for i := 0 to |signs|
      invariant simulated == SimulatedMeans(excess, signs)[..i]
    {
      simulated := simulated + [Mean(Flipped(excess, signs[i]))];
    }
    assert simulated == SimulatedMeans(excess, signs);
    var p := Fraction(AtLeast(simulated, observed));
    result := PermutationResult(Some(observed), p, p < 0.05, p < 0.01);
  }

  /** Significance at 1% implies significance at 5%. */
  lemma StricterLevelImpliesLooser(r: PermutationResult)
    requires r.significant005 <==> r.pValue < 0.05
    requires r.significant001 <==> r.pValue < 0.01
    ensures r.significant001 ==> r.significant005
  {
  }

  /** Flipping the signs of an all-zero excess leaves every simulated mean at 0. */
  lemma ZeroExcessMeans(excess: seq<real>, signs: seq<seq<int>>)
    requires |excess| > 0 && forall k :: 0 <= k < |excess| ==> excess[k] == 0.0
    requires forall i :: 0 <= i < |signs| ==> |signs[i]| == |excess| && SignVector(signs[i])
    ensures forall i :: 0 <= i < |signs| ==> SimulatedMeans(excess, signs)[i] == 0.0
  {
    forall i | 0 <= i < |signs|
      ensures SimulatedMeans(excess, signs)[i] == 0.0
    {
      var flipped := Flipped(excess, signs[i]);
      assert forall k :: 0 <= k < |flipped| ==> flipped[k] == 0.0;
      SumConstant(flipped, 0.0);
    }
  }

  /**
   * A strategy identical to the benchmark has no excess: the observed mean is 0, every
   * flipped mean is 0 as well, and so every draw counts and the p-value is exactly 1.
   */
  lemma IdenticalSeriesNeverSignificant(rs: seq<real>, signs: seq<seq<int>>)
    requires |rs| > 0 && |signs| > 0
    requires forall i :: 0 <= i < |signs| ==> |signs[i]| == |rs| && SignVector(signs[i])
    ensures Mean(Excess(rs, rs)) == 0.0
    ensures Fraction(AtLeast(SimulatedMeans(Excess(rs, rs), signs), Mean(Excess(rs, rs)))) == 1.0
  {
    var excess := Excess(rs, rs);
    assert forall k :: 0 <= k < |excess| ==> excess[k] == 0.0;
    SumConstant(excess, 0.0);
    ZeroExcessMeans(excess, signs);
    FractionAllTrue(AtLeast(SimulatedMeans(excess, signs), 0.0));
  }
}
