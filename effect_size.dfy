/**
 * Effect sizes of the robustness battery: Cohen's d of a strategy's monthly returns
 * against SPY's over a pooled sample standard deviation, its verbal grade, and the
 * verbal risk grade of a probability of backtest overfitting.
 */
module EffectSize {
  import opened Numerics
  import opened Metrics

  /**
   * The pooled sample variance `((n1-1)·var1 + (n2-1)·var2) / (n1+n2-2)`, both variances
   * with ddof = 1.  It is 0 exactly when neither series has any spread.
   */
  function PooledVariance(xs: seq<real>, ys: seq<real>): (v: real)
    requires |xs| >= 2 && |ys| >= 2
    ensures v >= 0.0
    ensures v == 0.0 <==> Variance(xs) == 0.0 && Variance(ys) == 0.0
  {
    var w1 := (|xs| - 1) as real;
    var w2 := (|ys| - 1) as real;
    var sv1 := SampleVariance(xs);
    var sv2 := SampleVariance(ys);
    SampleVarianceZero(xs);
    SampleVarianceZero(ys);
    WeightedSumZero(w1, sv1, w2, sv2);
    var total := w1 * sv1 + w2 * sv2;
    var d := (|xs| + |ys| - 2) as real;
    assert total / d == 0.0 <==> total == 0.0;
    total / d
  }

  lemma SampleVarianceZero(xs: seq<real>)
    requires |xs| >= 2
    ensures SampleVariance(xs) == 0.0 <==> Variance(xs) == 0.0
  {
    var n := |xs| as real;
    var v := Variance(xs);
    assert SampleVariance(xs) == v * n / (n - 1.0);
    if v != 0.0 {
      assert v * n != 0.0;
    }
  }

  lemma WeightedSumZero(w1: real, a: real, w2: real, b: real)
    requires w1 > 0.0 && w2 > 0.0 && a >= 0.0 && b >= 0.0
    ensures w1 * a + w2 * b >= 0.0
    ensures w1 * a + w2 * b == 0.0 <==> a == 0.0 && b == 0.0
  {
    if a > 0.0 {
      assert w1 * a > 0.0;
    }
    if b > 0.0 {
      assert w2 * b > 0.0;
    }
  }

  /**
   * `calc_cohens_d`: the difference of the means over the pooled standard deviation, 0 when
   * that deviation is 0.  A series with fewer than two months has a NaN sample variance,
   * and so a NaN d, modelled as `None`.
   */
  function CohensD(lib: Lib, strategy: seq<real>, benchmark: seq<real>): (d: Option<real>)
    ensures d.None? <==> |strategy| < 2 || |benchmark| < 2
    ensures d.Some? && Variance(strategy) == 0.0 && Variance(benchmark) == 0.0 ==> d.value == 0.0
    ensures d.Some? ==> (d.value > 0.0 <==> lib.sqrt(PooledVariance(strategy, benchmark)) > 0.0 && Mean(strategy) > Mean(benchmark))
    ensures d.Some? ==> (d.value < 0.0 <==> lib.sqrt(PooledVariance(strategy, benchmark)) > 0.0 && Mean(strategy) < Mean(benchmark))
  {
    if |strategy| < 2 || |benchmark| < 2 then None
    else
      var pooledStd := lib.sqrt(PooledVariance(strategy, benchmark));
      if pooledStd == 0.0 then Some(0.0)
      else
        var diff := Mean(strategy) - Mean(benchmark);
        SignOfQuotient(diff, pooledStd);
        Some(diff / pooledStd)
  }

  /** Swapping strategy and benchmark negates d: the pooled deviation is symmetric. */
  lemma CohensDAntisymmetric(lib: Lib, xs: seq<real>, ys: seq<real>)
    requires |xs| >= 2 && |ys| >= 2
    ensures CohensD(lib, ys, xs).value == -CohensD(lib, xs, ys).value
  {
    var pooled := PooledVariance(xs, ys);
    var w1 := (|xs| - 1) as real;
    var w2 := (|ys| - 1) as real;
    assert PooledVariance(ys, xs) == pooled;
    var s := lib.sqrt(pooled);
    if s != 0.0 {
      var diff := Mean(xs) - Mean(ys);
      assert (-diff) / s == -(diff / s);
    }
  }

  /** The verbal grades of `interpret_cohens_d`. */
  datatype Magnitude = Negligible | Small | Medium | Large

  function MagnitudeRank(m: Magnitude): nat
  {
    match m
    case Negligible => 0
    case Small => 1
    case Medium => 2
    case Large => 3
  }

  /**
   * `interpret_cohens_d` on |d| with cut points 0.2, 0.5 and 0.8.  A NaN d fails every
   * `<` test and so falls through to the largest grade.
   */
  function InterpretCohensD(d: Option<real>): (m: Magnitude)
    ensures d.None? ==> m == Large
    ensures d.Some? ==> (m == Negligible <==> Abs(d.value) < 0.2)
    ensures d.Some? ==> (m == Large <==> Abs(d.value) >= 0.8)
  {
    if d.None? then Large
    else
      var a := Abs(d.value);
      if a < 0.2 then Negligible
      else if a < 0.5 then Small
      else if a < 0.8 then Medium
      else Large
  }

  /** The grade depends on |d| only and never falls as |d| grows. */
  lemma InterpretMonotone(d1: real, d2: real)
    ensures InterpretCohensD(Some(-d1)) == InterpretCohensD(Some(d1))
    ensures Abs(d1) <= Abs(d2) ==>
              MagnitudeRank(InterpretCohensD(Some(d1))) <= MagnitudeRank(InterpretCohensD(Some(d2)))
  {
  }

  /** The verbal grades of `interpret_pbo`. */
  datatype OverfitRisk = LowRisk | ModerateRisk | HighRisk

  /** `interpret_pbo`: below 0.10 low, below 0.30 moderate, otherwise high. */
  function InterpretPbo(pbo: real): (r: OverfitRisk)
    ensures r == LowRisk <==> pbo < 0.10
    ensures r == HighRisk <==> pbo >= 0.30
  {
    if pbo < 0.10 then LowRisk
    else if pbo < 0.30 then ModerateRisk
    else HighRisk
  }
}
