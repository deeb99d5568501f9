/**
 * Per-day signals shared by both backtest engines: the momentum score, the blended
 * volatility estimate, the realized volatility of a weighted portfolio, the VolScale
 * exposure factor and the SPY 200-day regime filter.
 *
 * Prices are daily closes per symbol; a missing close (NaN in the data frame) is `None`.
 * Reading past either end of a series also gives `None`: Python slices stop at the end
 * of the array, and the scripts never index past it.
 */
module Signals {
  import opened Numerics

  type Series = seq<Option<real>>
  type Prices = map<string, Series>

  const MomentumPeriod: nat := 126
  const MaPeriod: nat := 200
  const RegimeThreshold: real := 0.95
  const VolShortPeriod: nat := 21
  const VolLongPeriod: nat := 60
  const VolShortMinReturns: nat := 10
  const VolLongMinReturns: nat := 20
  const VolShortWeight: real := 0.7
  const VolLongWeight: real := 0.3
  const VolFloor: real := 0.05
  const DefaultVol: real := 0.20
  const TradingDays: real := 252.0
  const VolScaleLookback: nat := 21
  const VolScaleMin: real := 0.5
  const VolScaleMax: real := 1.5
  const FallbackPortfolioVol: real := 0.15

  function At(series: Series, i: int): Option<real>
  {
    if 0 <= i < |series| then series[i] else None
  }

  /** The closes at positions lo .. hi - 1, Python's `prices[lo:hi]`. */
  function Window(series: Series, lo: int, hi: int): (w: Series)
    requires lo <= hi
    ensures |w| == hi - lo
    ensures forall k :: 0 <= k < |w| ==> w[k] == At(series, lo + k)
  {
    seq(hi - lo, k requires 0 <= k < hi - lo => At(series, lo + k))
  }

  /**
   * Price change over `period` trading days ending at `idx`.  Missing when the symbol is
   * unknown, the history is too short, either close is missing or the old close is not positive.
   */
  function Momentum(prices: Prices, symbol: string, idx: int, period: nat): (m: Option<real>)
    ensures m.Some? <==>
      symbol in prices && idx >= period
      && At(prices[symbol], idx).Some? && At(prices[symbol], idx - period).Some?
      && At(prices[symbol], idx - period).value > 0.0
  {
    if symbol !in prices || idx < period then None
    else
      var current := At(prices[symbol], idx);
      var past := At(prices[symbol], idx - period);
      if current.None? || past.None? || past.value <= 0.0 then None
      else Some(current.value / past.value - 1.0)
  }

  /** A defined momentum is the price relative over the period: past * (1 + m) is the current close. */
  lemma MomentumIsPriceRelative(prices: Prices, symbol: string, idx: int, period: nat)
    requires Momentum(prices, symbol, idx, period).Some?
    ensures (1.0 + Momentum(prices, symbol, idx, period).value) * At(prices[symbol], idx - period).value
            == At(prices[symbol], idx).value
  {
  }

  /** The day-over-day return at the end of a window, when numpy would give a number for it. */
  function LastReturn(w: Series): (r: seq<real>)
    requires |w| >= 2
    ensures |r| <= 1
  {
    match (w[|w| - 2], w[|w| - 1])
    case (Some(prev), Some(curr)) => if prev != 0.0 then [(curr - prev) / prev] else []
    case _ => []
  }

  /** `np.diff(w) / w[:-1]` with the NaN entries dropped. */
  function DailyReturns(w: Series): (r: seq<real>)
    ensures |w| >= 1 ==> |r| <= |w| - 1
    ensures |w| <= 1 ==> r == []
    decreases |w|
  {
    if |w| < 2 then [] else DailyReturns(w[..|w| - 1]) + LastReturn(w)
  }

  /** When every day of the window has a close, every return in it is kept. */
  lemma {:induction false} DailyReturnsComplete(w: Series)
    requires |w| >= 1
    requires forall k :: 0 <= k < |w| ==> w[k].Some? && (k < |w| - 1 ==> w[k].value != 0.0)
    ensures |DailyReturns(w)| == |w| - 1
    decreases |w|
  {
    if |w| >= 2 {
      DailyReturnsComplete(w[..|w| - 1]);
    }
  }

  /**
   * Annualised volatility over one horizon: the returns of the closes idx - period .. idx,
   * or nothing when the history is too short or fewer than minCount returns are defined.
   */
  function HorizonVol(lib: Lib, series: Series, idx: int, period: nat, minCount: nat): (v: Option<real>)
    requires minCount > 0
    ensures v.Some? ==> v.value >= 0.0
  {
    if idx < period then None
    else
      var rs := HorizonReturns(series, idx, period);
      if |rs| >= minCount then Some(Annualised(lib, Std(lib, rs))) else None
  }

  /** A daily standard deviation scaled by the square root of 252 trading days. */
  function Annualised(lib: Lib, daily: real): (a: real)
    requires daily >= 0.0
    ensures a >= 0.0
    ensures a > 0.0 <==> daily > 0.0
  {
    var k := lib.sqrt(TradingDays);
    assert k > 0.0;
    ProductSign(daily, k);
    daily * k
  }

  /** The defined daily returns among the closes idx - period .. idx. */
  function HorizonReturns(series: Series, idx: int, period: nat): (rs: seq<real>)
    requires idx >= period
    ensures |rs| <= period
  {
    DailyReturns(Window(series, idx - period, idx + 1))
  }

  lemma ProductSign(a: real, b: real)
    requires a >= 0.0 && b > 0.0
    ensures a * b >= 0.0 && (a * b > 0.0 <==> a > 0.0)
  {
  }

  function ShortVol(lib: Lib, series: Series, idx: int): Option<real>
  {
    HorizonVol(lib, series, idx, VolShortPeriod, VolShortMinReturns)
  }

  function LongVol(lib: Lib, series: Series, idx: int): Option<real>
  {
    HorizonVol(lib, series, idx, VolLongPeriod, VolLongMinReturns)
  }

  /**
   * The volatility used for inverse-volatility weighting: 70/30 blend of the 21-day and
   * 60-day estimates, whichever one exists when only one does, 20% when neither does,
   * never below the 5% floor; an unknown symbol gets the floor itself.
   */
  function SymbolVolatility(lib: Lib, prices: Prices, symbol: string, idx: int): (v: real)
    ensures v >= VolFloor
    ensures symbol !in prices ==> v == VolFloor
    ensures (symbol in prices && ShortVol(lib, prices[symbol], idx).None?
             && LongVol(lib, prices[symbol], idx).None?) ==> v == DefaultVol
    ensures (symbol in prices && ShortVol(lib, prices[symbol], idx).Some?
             && LongVol(lib, prices[symbol], idx).Some?) ==>
              var s := ShortVol(lib, prices[symbol], idx).value;
              var l := LongVol(lib, prices[symbol], idx).value;
              v == Max(VolShortWeight * s + VolLongWeight * l, VolFloor)
              && v >= Min(s, l) && (v == VolFloor || v <= Max(s, l))
    ensures (symbol in prices && ShortVol(lib, prices[symbol], idx).Some?
             && LongVol(lib, prices[symbol], idx).None?) ==>
              v == Max(ShortVol(lib, prices[symbol], idx).value, VolFloor)
    ensures (symbol in prices && ShortVol(lib, prices[symbol], idx).None?
             && LongVol(lib, prices[symbol], idx).Some?) ==>
              v == Max(LongVol(lib, prices[symbol], idx).value, VolFloor)
  {
    if symbol !in prices then VolFloor
    else
      var s := ShortVol(lib, prices[symbol], idx);
      var l := LongVol(lib, prices[symbol], idx);
      var vol :=
        if s.Some? && l.Some? then VolShortWeight * s.value + VolLongWeight * l.value
        else if s.Some? then s.value
        else if l.Some? then l.value
        else DefaultVol;
      Max(vol, VolFloor)
  }

  /**
   * When both horizons qualify and the floor does not bind, the blended volatility sits
   * between them, closer to the short horizon (it weighs 70%) than to the long one.
   */
  lemma BlendLeansShort(lib: Lib, prices: Prices, symbol: string, idx: int)
    requires symbol in prices
    requires ShortVol(lib, prices[symbol], idx).Some? && LongVol(lib, prices[symbol], idx).Some?
    requires SymbolVolatility(lib, prices, symbol, idx) > VolFloor
    ensures var v := SymbolVolatility(lib, prices, symbol, idx);
            var s := ShortVol(lib, prices[symbol], idx).value;
            var l := LongVol(lib, prices[symbol], idx).value;
            Min(s, l) <= v <= Max(s, l) && Abs(v - s) <= Abs(v - l)
  {
    var v := SymbolVolatility(lib, prices, symbol, idx);
    var s := ShortVol(lib, prices[symbol], idx).value;
    var l := LongVol(lib, prices[symbol], idx).value;
    assert v == VolShortWeight * s + VolLongWeight * l;
    assert v - s == VolLongWeight * (l - s);
    assert v - l == VolShortWeight * (s - l);
  }

  /** The returns of one holding over the VolScale lookback window. */
  datatype Holding = Holding(daily: seq<real>, weight: real)

  /**
   * All 21 daily returns ending at idx, or nothing when any of the 22 closes is missing
   * (numpy's `np.any(np.isnan(returns))`).
   */
  function LookbackReturns(series: Series, idx: int): (r: Option<seq<real>>)
    ensures r.Some? ==> |r.value| == VolScaleLookback
  {
    var w := Window(series, idx - VolScaleLookback, idx + 1);
    if forall k :: 0 <= k < |w| ==> w[k].Some? && (k < |w| - 1 ==> w[k].value != 0.0) then
      Some(seq(VolScaleLookback, t requires 0 <= t < VolScaleLookback =>
        (w[t + 1].value - w[t].value) / w[t].value))
    else None
  }

  function WeightOf(weights: map<string, real>, symbol: string): real
  {
    if symbol in weights then weights[symbol] else 0.0
  }

  /** The holdings of `selected` that take part in the realized-volatility estimate, in order. */
  function Holdings(prices: Prices, selected: seq<string>, weights: map<string, real>, idx: int): (h: seq<Holding>)
    ensures |h| <= |selected|
    ensures forall k :: 0 <= k < |h| ==> |h[k].daily| == VolScaleLookback
    decreases |selected|
  {
    if |selected| == 0 then []
    else
      var s := selected[|selected| - 1];
      Holdings(prices, selected[..|selected| - 1], weights, idx)
      + (if s in prices && LookbackReturns(prices[s], idx).Some?
         then [Holding(LookbackReturns(prices[s], idx).value, WeightOf(weights, s))]
         else [])
  }

  function HoldingWeights(h: seq<Holding>): (ws: seq<real>)
    ensures |ws| == |h|
  {
    seq(|h|, k requires 0 <= k < |h| => h[k].weight)
  }

  /** The weighted portfolio return on day t, the weights normalised to sum to one. */
  function PortfolioReturn(h: seq<Holding>, total: real, t: nat): real
    requires total != 0.0
    requires forall k :: 0 <= k < |h| ==> t < |h[k].daily|
  {
    Sum(seq(|h|, k requires 0 <= k < |h| => h[k].weight / total * h[k].daily[t]))
  }

  /**
   * Annualised volatility of the weighted holdings, floored at 5%; 15% when nothing
   * qualifies or numpy would give NaN (zero total weight) or zero.
   */
  function VolOfHoldings(lib: Lib, h: seq<Holding>): (v: real)
    requires forall k :: 0 <= k < |h| ==> |h[k].daily| == VolScaleLookback
    ensures v == FallbackPortfolioVol || v >= VolFloor
  {
    if |h| == 0 then FallbackPortfolioVol
    else
      var total := Sum(HoldingWeights(h));
      if total == 0.0 then FallbackPortfolioVol
      else
        var daily := seq(VolScaleLookback, t requires 0 <= t < VolScaleLookback => PortfolioReturn(h, total, t));
        var vol := Std(lib, daily) * lib.sqrt(TradingDays);
        if vol > 0.0 then Max(vol, VolFloor) else FallbackPortfolioVol
  }

  /** Realized volatility of the selection over the 21 days ending at idx. */
  function PortfolioVol(lib: Lib, prices: Prices, selected: seq<string>, weights: map<string, real>, idx: int): (v: real)
    ensures v == FallbackPortfolioVol || v >= VolFloor
    ensures idx < VolScaleLookback ==> v == FallbackPortfolioVol
    ensures Holdings(prices, selected, weights, idx) == [] ==> v == FallbackPortfolioVol
  {
    if idx < VolScaleLookback then FallbackPortfolioVol
    else VolOfHoldings(lib, Holdings(prices, selected, weights, idx))
  }

  /** Collects the qualifying holdings symbol by symbol, then measures their volatility. */
  method PortfolioVolatility(lib: Lib, prices: Prices, selected: seq<string>, weights: map<string, real>, idx: int)
    returns (vol: real)
    ensures vol == PortfolioVol(lib, prices, selected, weights, idx)
  {
    if idx < VolScaleLookback {
      return FallbackPortfolioVol;
    }
    var holdings: seq<Holding> := [];
    var i := 0;
    while i < |selected|
      invariant 0 <= i <= |selected|
      invariant holdings == Holdings(prices, selected[..i], weights, idx)
    {
      var symbol := selected[i];
      assert selected[..i + 1][..i] == selected[..i];
      if symbol in prices {
        var lookback := LookbackReturns(prices[symbol], idx);
        if lookback.Some? {
          holdings := holdings + [Holding(lookback.value, WeightOf(weights, symbol))];
        }
      }
      i := i + 1;
    }
    assert selected[..i] == selected;
    vol := VolOfHoldings(lib, holdings);
  }

  /**
   * The VolScale exposure: target over realized volatility (1 when realized is not
   * positive), clipped to [0.5, 1.5].  Inside the clip band it hits the target exactly.
   */
  function ScaleFor(target: real, realized: real): (s: real)
    ensures VolScaleMin <= s <= VolScaleMax
    ensures realized <= 0.0 ==> s == 1.0
  {
    var raw := if realized > 0.0 then target / realized else 1.0;
    Clip(raw, VolScaleMin, VolScaleMax)
  }

  /**
   * Within the clip range the factor brings the portfolio exactly to the target
   * (factor times realized volatility equals the target); outside it the factor sits at
   * the nearer bound.
   */
  lemma ScaleForHitsTarget(target: real, realized: real)
    requires realized > 0.0
    ensures VolScaleMin <= target / realized <= VolScaleMax ==> ScaleFor(target, realized) * realized == target
    ensures target / realized > VolScaleMax ==> ScaleFor(target, realized) == VolScaleMax
    ensures target / realized < VolScaleMin ==> ScaleFor(target, realized) == VolScaleMin
  {
  }

  /** The exposure factor and the realized volatility it was derived from. */
  method VolScaleFactor(lib: Lib, prices: Prices, selected: seq<string>, weights: map<string, real>, idx: int, target: real)
    returns (scale: real, realized: real)
    ensures realized == PortfolioVol(lib, prices, selected, weights, idx)
    ensures scale == ScaleFor(target, realized)
    ensures VolScaleMin <= scale <= VolScaleMax
  {
    realized := PortfolioVolatility(lib, prices, selected, weights, idx);
    scale := ScaleFor(target, realized);
  }

  function SpySeries(prices: Prices): Series
  {
    if "SPY" in prices then prices["SPY"] else []
  }

  /** The SPY close at idx and its 200-day mean, when both are numbers. */
  function RegimeInputs(prices: Prices, idx: int): (r: Option<(real, real)>)
    requires idx >= MaPeriod
  {
    var spy := SpySeries(prices);
    var w := Window(spy, idx - MaPeriod + 1, idx + 1);
    if At(spy, idx).None? || exists k :: 0 <= k < |w| && w[k].None? then None
    else Some((At(spy, idx).value, Mean(seq(|w|, k requires 0 <= k < |w| => w[k].value))))
  }

  /**
   * The regime filter: Bull before 200 days of history or when the close or its moving
   * average is NaN; otherwise Bull exactly when SPY is at or above 95% of its 200-day mean.
   */
  function IsBull(prices: Prices, idx: int): (bull: bool)
    ensures idx < MaPeriod ==> bull
    ensures idx >= MaPeriod && RegimeInputs(prices, idx).None? ==> bull
    ensures idx >= MaPeriod && RegimeInputs(prices, idx).Some? ==>
      (bull <==> RegimeInputs(prices, idx).value.0 >= RegimeInputs(prices, idx).value.1 * RegimeThreshold)
  {
    if idx < MaPeriod then true
    else
      var inputs := RegimeInputs(prices, idx);
      inputs.None? || inputs.value.0 >= inputs.value.1 * RegimeThreshold
  }

  /** Without an SPY series every day is Bull. */
  lemma NoSpyMeansBull(prices: Prices, idx: int)
    requires "SPY" !in prices
    ensures IsBull(prices, idx)
  {
    if idx >= MaPeriod {
      assert At(SpySeries(prices), idx).None?;
    }
  }
}
