/**
 * Monthly accounting of a held portfolio: one-way turnover between two weight
 * dictionaries (`calc_turnover`) and the cost-adjusted monthly return
 * (`calc_monthly_return_with_cost` and its VolScale variant).
 *
 * Turnover walks the union of the two key sets in whatever order the set yields; the
 * specification sums over the set, so the proof shows that the order does not matter.
 */
module Accounting {
  import opened Numerics
  import opened Signals

  /** Round-trip transaction cost rate, charged on one-way turnover. */
  const TransactionCost: real := 0.002

  /** `d.get(symbol, 0)`. */
  function Get(d: map<string, real>, symbol: string): real
  {
    if symbol in d then d[symbol] else 0.0
  }

  /** The sum of f over a finite set of symbols. */
  ghost function SetSum(keys: set<string>, f: string -> real): real
    decreases |keys|
  {
    if keys == {} then 0.0
    else
      var s :| s in keys;
      f(s) + SetSum(keys - {s}, f)
  }

  /** Any member may be split off first: the sum does not depend on the walking order. */
  lemma {:induction false} SetSumSplit(keys: set<string>, f: string -> real, s: string)
    requires s in keys
    ensures SetSum(keys, f) == f(s) + SetSum(keys - {s}, f)
    decreases |keys|
  {
    var t :| t in keys && SetSum(keys, f) == f(t) + SetSum(keys - {t}, f);
    if t != s {
      SetSumSplit(keys - {t}, f, s);
      SetSumSplit(keys - {s}, f, t);
      assert keys - {t} - {s} == keys - {s} - {t};
    }
  }

  /** Sums of functions that agree on the set are equal. */
  lemma {:induction false} SetSumCongruent(keys: set<string>, f: string -> real, g: string -> real)
    requires forall s :: s in keys ==> f(s) == g(s)
    ensures SetSum(keys, f) == SetSum(keys, g)
    decreases |keys|
  {
    if keys != {} {
      var s :| s in keys && SetSum(keys, f) == f(s) + SetSum(keys - {s}, f);
      SetSumSplit(keys, g, s);
      SetSumCongruent(keys - {s}, f, g);
    }
  }

  /** A pointwise smaller function has a smaller sum. */
  lemma {:induction false} SetSumMonotone(keys: set<string>, f: string -> real, g: string -> real)
    requires forall s :: s in keys ==> f(s) <= g(s)
    ensures SetSum(keys, f) <= SetSum(keys, g)
    decreases |keys|
  {
    if keys != {} {
      var s :| s in keys && SetSum(keys, f) == f(s) + SetSum(keys - {s}, f);
      SetSumSplit(keys, g, s);
      SetSumMonotone(keys - {s}, f, g);
    }
  }

  /** The sum of a pointwise sum is the sum of the sums. */
  lemma {:induction false} SetSumAdd(keys: set<string>, f: string -> real, g: string -> real, h: string -> real)
    requires forall s :: s in keys ==> h(s) == f(s) + g(s)
    ensures SetSum(keys, h) == SetSum(keys, f) + SetSum(keys, g)
    decreases |keys|
  {
    if keys != {} {
      var s :| s in keys && SetSum(keys, h) == h(s) + SetSum(keys - {s}, h);
      SetSumSplit(keys, f, s);
      SetSumSplit(keys, g, s);
      SetSumAdd(keys - {s}, f, g, h);
    }
  }

  /** Members where f vanishes contribute nothing: only the part of the set inside `support` counts. */
  lemma {:induction false} SetSumRestrict(keys: set<string>, support: set<string>, f: string -> real)
    requires forall s :: s in keys && s !in support ==> f(s) == 0.0
    ensures SetSum(keys, f) == SetSum(keys * support, f)
    decreases |keys|
  {
    if keys != {} {
      var s :| s in keys && SetSum(keys, f) == f(s) + SetSum(keys - {s}, f);
      SetSumRestrict(keys - {s}, support, f);
      if s in support {
        SetSumSplit(keys * support, f, s);
        assert (keys - {s}) * support == keys * support - {s};
      } else {
        assert (keys - {s}) * support == keys * support;
      }
    }
  }

  /** The absolute change of one symbol's weight, missing weights counting as zero. */
  function Change(prev: map<string, real>, curr: map<string, real>, symbol: string): (c: real)
    ensures c >= 0.0
    ensures c == 0.0 <==> Get(prev, symbol) == Get(curr, symbol)
  {
    Abs(Get(curr, symbol) - Get(prev, symbol))
  }

  /** Half the total absolute weight change over the union of the two key sets. */
  ghost function TurnoverOf(prev: map<string, real>, curr: map<string, real>): real
  {
    SetSum(prev.Keys + curr.Keys, s => Change(prev, curr, s)) / 2.0
  }

  /** The sum of a dictionary's values. */
  ghost function WeightTotal(d: map<string, real>): real
  {
    SetSum(d.Keys, s => Get(d, s))
  }

  /** `calc_turnover`: accumulates |curr - prev| symbol by symbol over the union of keys. */
  method Turnover(prev: map<string, real>, curr: map<string, real>) returns (turnover: real)
    ensures turnover == TurnoverOf(prev, curr)
    ensures turnover >= 0.0
  {
    ghost var change := s => Change(prev, curr, s);
    ghost var all := prev.Keys + curr.Keys;
    var remaining := prev.Keys + curr.Keys;
    var total := 0.0;
    while remaining != {}
      invariant remaining <= all
      invariant total >= 0.0
      invariant total + SetSum(remaining, change) == SetSum(all, change)
      decreases |remaining|
    {
      var symbol :| symbol in remaining;
      SetSumSplit(remaining, change, symbol);
      total := total + Abs(Get(curr, symbol) - Get(prev, symbol));
      remaining := remaining - {symbol};
    }
    turnover := total / 2.0;
  }

  /** Identical weights mean no trading. */
  lemma TurnoverOfIdentical(weights: map<string, real>)
    ensures TurnoverOf(weights, weights) == 0.0
  {
    SetSumZero(weights.Keys + weights.Keys, s => Change(weights, weights, s));
  }

  /** A function that vanishes on the set sums to zero over it. */
  lemma {:induction false} SetSumZero(keys: set<string>, f: string -> real)
    requires forall s :: s in keys ==> f(s) == 0.0
    ensures SetSum(keys, f) == 0.0
    decreases |keys|
  {
    if keys != {} {
      var s :| s in keys && SetSum(keys, f) == f(s) + SetSum(keys - {s}, f);
      SetSumZero(keys - {s}, f);
    }
  }

  /** A non-negative function has a non-negative sum. */
  lemma {:induction false} SetSumNonNegative(keys: set<string>, f: string -> real)
    requires forall s :: s in keys ==> f(s) >= 0.0
    ensures SetSum(keys, f) >= 0.0
    decreases |keys|
  {
    if keys != {} {
      var s :| s in keys && SetSum(keys, f) == f(s) + SetSum(keys - {s}, f);
      SetSumNonNegative(keys - {s}, f);
    }
  }

  /** Turnover from a to b equals turnover from b to a. */
  lemma TurnoverSymmetric(a: map<string, real>, b: map<string, real>)
    ensures TurnoverOf(a, b) == TurnoverOf(b, a)
  {
    assert a.Keys + b.Keys == b.Keys + a.Keys;
    SetSumCongruent(a.Keys + b.Keys, s => Change(a, b, s), s => Change(b, a, s));
  }

  /** Every weight is non-negative. */
  predicate NonNegativeWeights(d: map<string, real>)
  {
    forall s :: s in d ==> d[s] >= 0.0
  }

  /** Summing a dictionary over a larger set adds only zeros. */
  lemma WeightTotalOver(d: map<string, real>, keys: set<string>)
    requires d.Keys <= keys
    ensures SetSum(keys, s => Get(d, s)) == WeightTotal(d)
  {
    SetSumRestrict(keys, d.Keys, s => Get(d, s));
    assert keys * d.Keys == d.Keys;
  }

  /** Turnover never exceeds half the two totals together. */
  lemma TurnoverAtMostHalfTotals(prev: map<string, real>, curr: map<string, real>)
    requires NonNegativeWeights(prev) && NonNegativeWeights(curr)
    ensures 0.0 <= TurnoverOf(prev, curr) <= (WeightTotal(prev) + WeightTotal(curr)) / 2.0
  {
    var all := prev.Keys + curr.Keys;
    var change := s => Change(prev, curr, s);
    var p := s => Get(prev, s);
    var c := s => Get(curr, s);
    var both := s => Get(prev, s) + Get(curr, s);
    SetSumMonotone(all, change, both);
    SetSumAdd(all, p, c, both);
    WeightTotalOver(prev, all);
    WeightTotalOver(curr, all);
    SetSumNonNegative(all, change);
  }

  /** Two portfolios of non-negative weights each summing to at most one turn over at most 100%. */
  lemma TurnoverWithinUnit(prev: map<string, real>, curr: map<string, real>)
    requires NonNegativeWeights(prev) && NonNegativeWeights(curr)
    requires WeightTotal(prev) <= 1.0 && WeightTotal(curr) <= 1.0
    ensures 0.0 <= TurnoverOf(prev, curr) <= 1.0
  {
    TurnoverAtMostHalfTotals(prev, curr);
  }

  /** Buying a fully invested portfolio from cash (the first month, against {}) turns over 50%. */
  lemma FirstMonthTurnover(curr: map<string, real>)
    requires NonNegativeWeights(curr) && WeightTotal(curr) == 1.0
    ensures TurnoverOf(map[], curr) == 0.5
  {
    var empty: map<string, real> := map[];
    assert empty.Keys + curr.Keys == curr.Keys;
    SetSumCongruent(curr.Keys, s => Change(empty, curr, s), s => Get(curr, s));
  }

  // ---------------------------------------------------------------------------------
  // Monthly return

  /** A holding earns a return when it has a close at both ends and a positive opening close. */
  predicate Tradable(prices: Prices, symbol: string, startIdx: int, endIdx: int)
  {
    symbol in prices && At(prices[symbol], startIdx).Some? && At(prices[symbol], endIdx).Some?
    && At(prices[symbol], startIdx).value > 0.0
  }

  function PriceReturn(prices: Prices, symbol: string, startIdx: int, endIdx: int): real
    requires Tradable(prices, symbol, startIdx, endIdx)
  {
    At(prices[symbol], endIdx).value / At(prices[symbol], startIdx).value - 1.0
  }

  /** Weighted price return of the tradable selected symbols; the others contribute nothing. */
  function GrossReturn(prices: Prices, selected: seq<string>, weights: map<string, real>, startIdx: int, endIdx: int): real
    requires forall s :: s in selected ==> s in weights
    decreases |selected|
  {
    if |selected| == 0 then 0.0
    else
      var s := selected[|selected| - 1];
      GrossReturn(prices, selected[..|selected| - 1], weights, startIdx, endIdx)
      + (if Tradable(prices, s, startIdx, endIdx) then PriceReturn(prices, s, startIdx, endIdx) * weights[s] else 0.0)
  }

  /** The gross return as a weighted sum: the weights over the selection paired with the price returns. */
  function SelectionWeightList(selected: seq<string>, weights: map<string, real>): (ws: seq<real>)
    requires forall s :: s in selected ==> s in weights
    ensures |ws| == |selected|
  {
    seq(|selected|, k requires 0 <= k < |selected| => weights[selected[k]])
  }

  /**
   * When every selected symbol is tradable and moves by the same return r, a portfolio
   * whose weights sum to w over the selection moves by w * r.
   */
  lemma {:induction false} UniformMoveScalesByWeight(prices: Prices, selected: seq<string>, weights: map<string, real>,
                                                      startIdx: int, endIdx: int, r: real)
    requires forall s :: s in selected ==> s in weights
    requires forall s :: s in selected ==> Tradable(prices, s, startIdx, endIdx) && PriceReturn(prices, s, startIdx, endIdx) == r
    ensures GrossReturn(prices, selected, weights, startIdx, endIdx) == Sum(SelectionWeightList(selected, weights)) * r
    decreases |selected|
  {
    if |selected| > 0 {
      var n := |selected| - 1;
      UniformMoveScalesByWeight(prices, selected[..n], weights, startIdx, endIdx, r);
      assert SelectionWeightList(selected, weights)[..n] == SelectionWeightList(selected[..n], weights);
    }
  }

  /** A fully invested portfolio moves with a uniform market move. */
  lemma FullyInvestedFollowsUniformMove(prices: Prices, selected: seq<string>, weights: map<string, real>,
                                        startIdx: int, endIdx: int, r: real)
    requires forall s :: s in selected ==> s in weights
    requires Sum(SelectionWeightList(selected, weights)) == 1.0
    requires forall s :: s in selected ==> Tradable(prices, s, startIdx, endIdx) && PriceReturn(prices, s, startIdx, endIdx) == r
    ensures GrossReturn(prices, selected, weights, startIdx, endIdx) == r
  {
    UniformMoveScalesByWeight(prices, selected, weights, startIdx, endIdx, r);
  }

  /** Symbols that cannot be traded earn nothing: a month with no tradable holding has no gross return. */
  lemma {:induction false} NothingTradableEarnsNothing(prices: Prices, selected: seq<string>, weights: map<string, real>,
                                                       startIdx: int, endIdx: int)
    requires forall s :: s in selected ==> s in weights
    requires forall s :: s in selected ==> !Tradable(prices, s, startIdx, endIdx)
    ensures GrossReturn(prices, selected, weights, startIdx, endIdx) == 0.0
    decreases |selected|
  {
    if |selected| > 0 {
      NothingTradableEarnsNothing(prices, selected[..|selected| - 1], weights, startIdx, endIdx);
    }
  }

  /** The gross return accumulated symbol by symbol, skipping untradable ones. */
  method AccumulateGross(prices: Prices, selected: seq<string>, weights: map<string, real>, startIdx: int, endIdx: int)
    returns (gross: real)
    requires forall s :: s in selected ==> s in weights
    ensures gross == GrossReturn(prices, selected, weights, startIdx, endIdx)
  {
    gross := 0.0;
    for i := 0 to |selected|
      invariant gross == GrossReturn(prices, selected[..i], weights, startIdx, endIdx)
    {
      var symbol := selected[i];
      assert selected[..i + 1][..i] == selected[..i];
      if symbol !in prices {
        continue;
      }
      var startPrice := At(prices[symbol], startIdx);
      var endPrice := At(prices[symbol], endIdx);
      if startPrice.None? || endPrice.None? || startPrice.value <= 0.0 {
        continue;
      }
      gross := gross + (endPrice.value / startPrice.value - 1.0) * weights[symbol];
    }
    assert selected[..|selected|] == selected;
  }

  /** The month's return net of cost: the gross return less cost times the one-way turnover. */
  ghost function NetReturn(prices: Prices, selected: seq<string>, weights: map<string, real>,
                           startIdx: int, endIdx: int, prev: map<string, real>, cost: real): real
    requires forall s :: s in selected ==> s in weights
  {
    GrossReturn(prices, selected, weights, startIdx, endIdx) - cost * TurnoverOf(prev, weights)
  }

  /**
   * `calc_monthly_return_with_cost`: the gross return less cost times the one-way
   * turnover from the previous weights, together with that turnover.
   */
  method MonthlyReturnWithCost(prices: Prices, selected: seq<string>, weights: map<string, real>,
                               startIdx: int, endIdx: int, prev: map<string, real>, cost: real)
    returns (ret: real, turnover: real)
    requires forall s :: s in selected ==> s in weights
    ensures turnover == TurnoverOf(prev, weights) && turnover >= 0.0
    ensures ret == NetReturn(prices, selected, weights, startIdx, endIdx, prev, cost)
  {
    var gross := AccumulateGross(prices, selected, weights, startIdx, endIdx);
    turnover := Turnover(prev, weights);
    ret := gross - cost * turnover;
  }

  /** A VolScale variant's return: the cost-adjusted return times the exposure factor. */
  function ScaledReturn(net: real, scale: real): real
  {
    net * scale
  }

  /** The VolScale variant scales the already cost-adjusted return by the exposure factor. */
  method MonthlyReturnVolScaleWithCost(prices: Prices, selected: seq<string>, weights: map<string, real>,
                                       startIdx: int, endIdx: int, scale: real, prev: map<string, real>, cost: real)
    returns (ret: real, turnover: real)
    requires forall s :: s in selected ==> s in weights
    ensures turnover == TurnoverOf(prev, weights) && turnover >= 0.0
    ensures ret == ScaledReturn(NetReturn(prices, selected, weights, startIdx, endIdx, prev, cost), scale)
  {
    var base;
    base, turnover := MonthlyReturnWithCost(prices, selected, weights, startIdx, endIdx, prev, cost);
    ret := ScaledReturn(base, scale);
  }

  /** Holding the same weights through a month with no tradable holding returns exactly zero. */
  lemma UnchangedIdleMonthIsFlat(prices: Prices, selected: seq<string>, weights: map<string, real>,
                                 startIdx: int, endIdx: int, cost: real)
    requires forall s :: s in selected ==> s in weights
    requires forall s :: s in selected ==> !Tradable(prices, s, startIdx, endIdx)
    ensures NetReturn(prices, selected, weights, startIdx, endIdx, weights, cost) == 0.0
  {
    NothingTradableEarnsNothing(prices, selected, weights, startIdx, endIdx);
    TurnoverOfIdentical(weights);
  }

  /** With a non-negative cost, trading can only lower the net return below the gross return. */
  lemma CostNeverHelps(prev: map<string, real>, curr: map<string, real>, gross: real, cost: real)
    requires cost >= 0.0
    ensures gross - cost * TurnoverOf(prev, curr) <= gross
  {
    var all := prev.Keys + curr.Keys;
    SetSumNonNegative(all, s => Change(prev, curr, s));
    ProductNonNegative(cost, TurnoverOf(prev, curr));
  }

  lemma ProductNonNegative(a: real, b: real)
    requires a >= 0.0 && b >= 0.0
    ensures a * b >= 0.0
  {
  }
}
