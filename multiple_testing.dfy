/**
 * Corrections for testing twelve strategies against SPY at once: the Bonferroni level of
 * the battery's twelfth test, and the Benjamini-Hochberg step-up adjustment of the
 * permutation-test p-values.
 */
module MultipleTesting {
  import opened Numerics
  import opened Strategies

  const Alpha: real := 0.05

  // ---------------------------------------------------------------------------------
  // Bonferroni

  /** The number of strategies tested against the benchmark: every variant but SPY itself. */
  function TestedCount(): nat
  {
    CountTrue(seq(|AllVariants|, i requires 0 <= i < |AllVariants| => AllVariants[i] != Spy))
  }

  lemma TwelveTests()
    ensures TestedCount() == 12
  {
    var tested := seq(|AllVariants|, i requires 0 <= i < |AllVariants| => AllVariants[i] != Spy);
    for k := 0 to 13
      invariant CountTrue(tested[..k]) == if k > 6 then k - 1 else k
    {
      TestedStep(tested, k);
    }
    assert tested[..13] == tested;
  }

  /** Only the seventh listed variant, SPY itself, is not tested. */
  lemma TestedStep(tested: seq<bool>, k: nat)
    requires |tested| == |AllVariants| && k < |AllVariants|
    requires forall i :: 0 <= i < |AllVariants| ==> tested[i] == (AllVariants[i] != Spy)
    ensures CountTrue(tested[..k + 1]) == CountTrue(tested[..k]) + (if k != 6 then 1 else 0)
  {
    PositionOfListed(k);
    CountTrueAppend(tested[..k], tested[k]);
    assert tested[..k + 1] == tested[..k] + [tested[k]];
  }

  datatype BonferroniEntry = BonferroniEntry(pValue: real, bonferroniAlpha: real, significant: bool)

  /** The twelfth test: each p-value against 0.05 divided by the number of strategies tested. */
  function Bonferroni(pValues: seq<real>): (entries: seq<BonferroniEntry>)
    ensures |entries| == |pValues|
    ensures forall i :: 0 <= i < |pValues| ==>
              && entries[i].pValue == pValues[i]
              && entries[i].bonferroniAlpha == Alpha / 12.0
              && (entries[i].significant <==> pValues[i] * 12.0 < Alpha)
  {
    TwelveTests();
    var level := Alpha / (TestedCount() as real);
    seq(|pValues|, i requires 0 <= i < |pValues| => BonferroniEntry(pValues[i], level, pValues[i] < level))
  }

  /** The composite score divides by thirteen, counting SPY among the strategies. */
  const ScoringBonferroniAlpha: real := Alpha / 13.0

  /**
   * The composite score's Bonferroni criterion is stricter than the twelfth test's: what
   * passes the first passes the second, but a p-value of 0.004 passes only the second.
   */
  lemma ScoringLevelStricter(p: real)
    ensures p < ScoringBonferroniAlpha ==> p * 12.0 < Alpha
    ensures var q := 0.004; q * 12.0 < Alpha && !(q < ScoringBonferroniAlpha)
  {
    if p < ScoringBonferroniAlpha {
      assert p * 13.0 < Alpha;
    }
  }

  // ---------------------------------------------------------------------------------
  // Benjamini-Hochberg

  /** `order` lists every index of [0, n) exactly once. */
  predicate IsPermutation(order: seq<nat>, n: nat)
  {
    && |order| == n
    && (forall k :: 0 <= k < n ==> order[k] < n)
    && (forall k, l :: 0 <= k < l < n ==> order[k] != order[l])
    && (forall s :: 0 <= s < n ==> s in order)
  }

  /** What `np.argsort` promises: listing the p-values in `order` puts them in ascending order. */
  predicate SortsAscending(pvals: seq<real>, order: seq<nat>)
    requires IsPermutation(order, |pvals|)
  {
    forall k, l :: 0 <= k < l < |pvals| ==> pvals[order[k]] <= pvals[order[l]]
  }

  function SortedBy(pvals: seq<real>, order: seq<nat>): (sp: seq<real>)
    requires IsPermutation(order, |pvals|)
    ensures |sp| == |pvals|
    ensures forall k :: 0 <= k < |pvals| ==> sp[k] == pvals[order[k]]
  {
    seq(|pvals|, k requires 0 <= k < |pvals| => pvals[order[k]])
  }

  /** The Benjamini-Hochberg ratio of rank k (0-based): p · n / (k + 1). */
  function Scaled(sp: seq<real>, k: nat): real
    requires k < |sp|
  {
    sp[k] * (|sp| as real) / ((k + 1) as real)
  }

  /** The adjusted p-value of rank k, as the backward loop computes it. */
  function StepUp(sp: seq<real>, k: nat): real
    requires k < |sp|
    decreases |sp| - k
  {
    if k == |sp| - 1 then sp[k] else Min(StepUp(sp, k + 1), Scaled(sp, k))
  }

  /** The adjusted p-value of rank k is the least ratio of rank k or later. */
  lemma {:induction false} StepUpIsMinimum(sp: seq<real>, k: nat)
    requires k < |sp|
    ensures forall j :: k <= j < |sp| ==> StepUp(sp, k) <= Scaled(sp, j)
    ensures exists j :: k <= j < |sp| && StepUp(sp, k) == Scaled(sp, j)
    decreases |sp| - k
  {
    if k == |sp| - 1 {
      var n := |sp| as real;
      assert Scaled(sp, k) == sp[k] * n / n;
      assert Scaled(sp, k) == StepUp(sp, k);
    } else {
      StepUpIsMinimum(sp, k + 1);
    }
  }

  /** Adjusted p-values never fall with the rank. */
  lemma StepUpMonotone(sp: seq<real>, k: nat, l: nat)
    requires k <= l < |sp|
    ensures StepUp(sp, k) <= StepUp(sp, l)
  {
    StepUpIsMinimum(sp, k);
    StepUpIsMinimum(sp, l);
    var j :| l <= j < |sp| && StepUp(sp, l) == Scaled(sp, j);
  }

  /** Of two equal non-negative p-values, the later rank has the smaller ratio. */
  lemma ScaledTieDecreases(sp: seq<real>, k: nat)
    requires k + 1 < |sp| && sp[k] == sp[k + 1] >= 0.0
    ensures Scaled(sp, k + 1) <= Scaled(sp, k)
  {
    var num := sp[k] * (|sp| as real);
    assert num >= 0.0;
    assert Scaled(sp, k) == num / ((k + 1) as real) && Scaled(sp, k + 1) == num / ((k + 2) as real);
    assert num / ((k + 2) as real) * ((k + 2) as real) == num;
    assert num / ((k + 1) as real) * ((k + 1) as real) == num;
  }

  /**
   * Tied p-values receive the same adjusted value, so it does not matter in which order
   * an ascending sort puts them.
   */
  lemma {:induction false} TiedRanksAgree(sp: seq<real>, k: nat, l: nat)
    requires k <= l < |sp| && sp[k] == sp[l]
    requires forall j :: 0 <= j < |sp| ==> sp[j] >= 0.0
    requires forall i, j :: 0 <= i < j < |sp| ==> sp[i] <= sp[j]
    ensures StepUp(sp, k) == StepUp(sp, l)
    decreases l - k
  {
    if k < l {
      assert sp[k] <= sp[k + 1] <= sp[l];
      TiedRanksAgree(sp, k + 1, l);
      ScaledTieDecreases(sp, k);
      StepUpIsMinimum(sp, k + 1);
    }
  }

  lemma ScaledAtLeast(sp: seq<real>, k: nat)
    requires k < |sp| && sp[k] >= 0.0
    ensures Scaled(sp, k) >= sp[k]
  {
    var p := sp[k];
    var r := (|sp| as real) / ((k + 1) as real);
    assert r >= 1.0;
    assert Scaled(sp, k) == p * r;
    assert p * r >= p * 1.0;
  }

  /** For sorted non-negative p-values, no adjustment makes a p-value smaller. */
  lemma StepUpAtLeastRaw(sp: seq<real>, k: nat)
    requires k < |sp|
    requires forall j :: 0 <= j < |sp| ==> sp[j] >= 0.0
    requires forall i, j :: 0 <= i < j < |sp| ==> sp[i] <= sp[j]
    ensures StepUp(sp, k) >= sp[k]
  {
    var j := StepUpAttained(sp, k);
    ScaledAtLeast(sp, j);
    if j > k {
      assert sp[k] <= sp[j];
    }
  }

  /** A rank at or after k whose ratio is the adjusted p-value of rank k. */
  lemma StepUpAttained(sp: seq<real>, k: nat) returns (j: nat)
    requires k < |sp|
    ensures k <= j < |sp| && StepUp(sp, k) == Scaled(sp, j)
  {
    StepUpIsMinimum(sp, k);
    j :| k <= j < |sp| && StepUp(sp, k) == Scaled(sp, j);
  }

  /**
   * The step-up rule: rank k is a discovery exactly when some rank at or after it has a
   * ratio below the level.
   */
  lemma StepUpRule(sp: seq<real>, k: nat, alpha: real)
    requires k < |sp|
    ensures StepUp(sp, k) < alpha <==> exists j :: k <= j < |sp| && Scaled(sp, j) < alpha
  {
    StepUpIsMinimum(sp, k);
  }

  lemma RatioAtMost(p: real, n: nat, k: nat)
    requires p >= 0.0 && k < n
    ensures p * (n as real) / ((k + 1) as real) <= p * (n as real)
  {
    var pn := p * (n as real);
    var d := (k + 1) as real;
    assert pn >= 0.0 && d >= 1.0;
    assert pn / d * d == pn;
    assert pn / d * d >= pn / d * 1.0;
  }

  lemma BelowLevel(p: real, alpha: real, n: real)
    requires n >= 1.0 && p < alpha / n
    ensures p * n < alpha
  {
    assert p * n < alpha / n * n;
  }

  /** A p-value that passes Bonferroni at the same level is also a Benjamini-Hochberg discovery. */
  lemma BonferroniImpliesDiscovery(sp: seq<real>, k: nat, alpha: real)
    requires k < |sp| && sp[k] >= 0.0
    requires sp[k] < alpha / (|sp| as real)
    ensures StepUp(sp, k) < alpha
  {
    BelowLevel(sp[k], alpha, |sp| as real);
    StepUpAtMostRaw(sp, k);
  }

  /** A non-negative p-value's adjusted value is at most the p-value times the number of tests. */
  lemma StepUpAtMostRaw(sp: seq<real>, k: nat)
    requires k < |sp| && sp[k] >= 0.0
    ensures StepUp(sp, k) <= sp[k] * (|sp| as real)
  {
    StepUpAtMostOwn(sp, k);
    ScaledAtMostRaw(sp, k);
  }

  lemma StepUpAtMostOwn(sp: seq<real>, k: nat)
    requires k < |sp|
    ensures StepUp(sp, k) <= Scaled(sp, k)
  {
    StepUpIsMinimum(sp, k);
  }

  lemma ScaledAtMostRaw(sp: seq<real>, k: nat)
    requires k < |sp| && sp[k] >= 0.0
    ensures Scaled(sp, k) <= sp[k] * (|sp| as real)
  {
    RatioAtMost(sp[k], |sp|, k);
  }

  datatype FdrEntry = FdrEntry(originalP: real, adjustedP: real, fdrSignificant: bool, bonferroniSignificant: bool)

  /** The backward loop: the largest rank keeps its p-value, each smaller one takes the least ratio so far. */
  method AdjustSorted(sp: seq<real>) returns (adjusted: array<real>)
    ensures fresh(adjusted) && adjusted.Length == |sp|
    ensures forall k :: 0 <= k < |sp| ==> adjusted[k] == StepUp(sp, k)
  {
    var n := |sp|;
    adjusted := new real[n];
    var i := n;
    while i > 0
      invariant 0 <= i <= n
      invariant forall k :: i <= k < n ==> adjusted[k] == StepUp(sp, k)
    {
      i := i - 1;
      if i == n - 1 {
        adjusted[i] := sp[i];
      } else {
        adjusted[i] := Min(adjusted[i + 1], Scaled(sp, i));
      }
    }
  }

  /** Writes the value of rank k back at the original position `order[k]`. */
  method Unsort(adjusted: array<real>, order: seq<nat>) returns (original: array<real>)
    requires IsPermutation(order, adjusted.Length)
    ensures fresh(original) && original.Length == adjusted.Length
    ensures forall k :: 0 <= k < adjusted.Length ==> original[order[k]] == adjusted[k]
  {
    original := new real[adjusted.Length];
    for r := 0 to adjusted.Length
      invariant forall k :: 0 <= k < r ==> original[order[k]] == adjusted[k]
    {
      original[order[r]] := adjusted[r];
    }
  }

  /**
   * `benjamini_hochberg_correction`, given the ascending order `np.argsort` chose: the
   * adjusted p-values are filled in from the largest rank down, put back in the original
   * order, and reported capped at 1; the discovery flag reads the uncapped value.
   */
  method BenjaminiHochberg(pvals: seq<real>, order: seq<nat>, alpha: real) returns (results: seq<FdrEntry>)
    requires IsPermutation(order, |pvals|) && SortsAscending(pvals, order)
    ensures |results| == |pvals|
    ensures forall k :: 0 <= k < |pvals| ==>
              var adjusted := StepUp(SortedBy(pvals, order), k);
              results[order[k]] == FdrEntry(pvals[order[k]], Min(adjusted, 1.0), adjusted < alpha,
                                            pvals[order[k]] < alpha / (|pvals| as real))
  {
    var adjusted := AdjustSorted(SortedBy(pvals, order));
    var original := Unsort(adjusted, order);
    results := Report(pvals, original[..], alpha);
  }

  /** The result loop over the strategies in their original order. */
  method Report(pvals: seq<real>, adjusted: seq<real>, alpha: real) returns (results: seq<FdrEntry>)
    requires |adjusted| == |pvals|
    ensures |results| == |pvals|
    ensures forall t :: 0 <= t < |pvals| ==>
              results[t] == FdrEntry(pvals[t], Min(adjusted[t], 1.0), adjusted[t] < alpha,
                                     pvals[t] < alpha / (|pvals| as real))
  {
    var n := |pvals|;
    results := [];
    for s := 0 to n
      invariant |results| == s
      invariant forall t :: 0 <= t < s ==>
                  results[t] == FdrEntry(pvals[t], Min(adjusted[t], 1.0), adjusted[t] < alpha,
                                         pvals[t] < alpha / (n as real))
    {
      results := results + [FdrEntry(pvals[s], Min(adjusted[s], 1.0), adjusted[s] < alpha,
                                     pvals[s] < alpha / (n as real))];
    }
  }

  /** Every reported adjusted p-value is at most 1, and at least the raw one for valid p-values. */
  lemma ReportedAdjustedBounds(pvals: seq<real>, order: seq<nat>, k: nat)
    requires IsPermutation(order, |pvals|) && SortsAscending(pvals, order) && k < |pvals|
    requires forall s :: 0 <= s < |pvals| ==> pvals[s] >= 0.0
    ensures Min(StepUp(SortedBy(pvals, order), k), 1.0) <= 1.0
    ensures pvals[order[k]] <= 1.0 ==> Min(StepUp(SortedBy(pvals, order), k), 1.0) >= pvals[order[k]]
  {
    StepUpAtLeastRaw(SortedBy(pvals, order), k);
  }
}
