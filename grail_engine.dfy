/**
 * The 13-variant monthly backtest of the Holy Grail script.  Month by month it selects
 * the four portfolios on the day before the month starts, and, when all four exist,
 * appends one return, turnover and running growth to every variant; the VolScale
 * variants also record their exposure factor.  The results dictionary, the previous
 * weights, the yearly growth and the month and regime lists are the fields of
 * `GrailBacktest`, which the month step updates in place.
 */
module GrailEngine {
  import opened Numerics
  import opened Signals
  import opened Selection
  import opened Accounting
  import opened Strategies

  /** Target annualised volatility per strategy name for the VolScale variants. */
  const VolScaleTargets: map<string, real> := map[
    "D2" := 0.19, "D3" := 0.19, "防御型TOP5" := 0.08, "防御型TOP3" := 0.08,
    "D2+防御型" := 0.11, "D3+防御型" := 0.14]

  const DefaultTargetVol: real := 0.12

  /** `VOLSCALE_TARGETS.get(strategy, 0.12)`. */
  function TargetVol(strategy: string): real
  {
    if strategy in VolScaleTargets then VolScaleTargets[strategy] else DefaultTargetVol
  }

  /** The target a VolScale variant looks up is its unscaled twin's name. */
  function TargetKey(v: Variant): string
  {
    Name(Unscaled(v))
  }

  /**
   * Every VolScale variant finds its own target in the table, the hybrids keep theirs in
   * both regimes, and a name missing from the table falls back to 12%.
   */
  lemma TargetsOfVariants()
    ensures TargetVol(TargetKey(D2VolScale)) == 0.19 && TargetVol(TargetKey(D3VolScale)) == 0.19
    ensures TargetVol(TargetKey(Def5VolScale)) == 0.08 && TargetVol(TargetKey(Def3VolScale)) == 0.08
    ensures TargetVol(TargetKey(D2HybridVolScale)) == 0.11 && TargetVol(TargetKey(D3HybridVolScale)) == 0.14
    ensures TargetVol("SPY") == DefaultTargetVol
  {
  }

  /** One selection as `select_attack_stocks` / `select_defense_etfs` return it. */
  function PickOf(lib: Lib, prices: Prices, universe: seq<string>, idx: int, topN: nat, period: nat): (p: Pick)
    ensures Covered(p)
  {
    var selected := SelectedSymbols(prices, universe, idx, topN, period);
    SelectionWeightsKeys(lib, prices, selected, idx);
    Pick(selected, SelectionWeights(lib, prices, selected, idx))
  }

  /** The investable universes of a run: the S&P 100 and S&P 500 members that have prices. */
  datatype Universes = Universes(sp100: seq<string>, sp500: seq<string>)

  /**
   * The four selections made on day idx: the top attackTopN of each attack universe and
   * the top five and top three defensive ETFs, all ranked on momentum over period days.
   */
  function MonthPicks(lib: Lib, prices: Prices, u: Universes, idx: int, attackTopN: nat, period: nat): (p: Picks)
    ensures AllCovered(p)
  {
    Picks(
      PickOf(lib, prices, u.sp100, idx, attackTopN, period),
      PickOf(lib, prices, u.sp500, idx, attackTopN, period),
      PickOf(lib, prices, DefenseEtfs, idx, DefenseTopN5, period),
      PickOf(lib, prices, DefenseEtfs, idx, DefenseTopN3, period))
  }

  /** The month is traded only when all four selections are non-empty. */
  predicate AllSelected(p: Picks)
  {
    p.d2.symbols != [] && p.d3.symbols != [] && p.def5.symbols != [] && p.def3.symbols != []
  }

  function PrevOf(prev: map<Variant, map<string, real>>, v: Variant): map<string, real>
  {
    if v in prev then prev[v] else map[]
  }

  /** SPY's month: its buy-and-hold return, or 0 when a close is missing; no turnover, no weights. */
  function SpyStep(prices: Prices, startIdx: int, endIdx: int): (st: Step)
    ensures st.turnover == 0.0 && st.scale == None && st.weights == map[]
    ensures SpyReturn(prices, startIdx, endIdx).Some? ==> st.ret == SpyReturn(prices, startIdx, endIdx).value
    ensures SpyReturn(prices, startIdx, endIdx).None? ==> st.ret == 0.0
  {
    var r := SpyReturn(prices, startIdx, endIdx);
    Step(if r.Some? then r.value else 0.0, 0.0, None, map[])
  }

  /**
   * The month of a variant holding pick p: the gross return less cost times the turnover
   * against the previous weights and, for a VolScale variant with the given target,
   * multiplied by the clipped exposure factor measured on the selection day.
   */
  ghost function PickStep(lib: Lib, prices: Prices, p: Pick, target: Option<real>, prev: map<string, real>,
                          startIdx: int, endIdx: int, selectionIdx: int, cost: real): (st: Step)
    requires Covered(p)
    ensures st.weights == p.weights && st.turnover == TurnoverOf(prev, p.weights)
    ensures st.scale.Some? <==> target.Some?
    ensures st.scale.Some? ==> VolScaleMin <= st.scale.value <= VolScaleMax
  {
    var net := NetReturn(prices, p.symbols, p.weights, startIdx, endIdx, prev, cost);
    if target.Some? then
      var scale := ScaleFor(target.value, PortfolioVol(lib, prices, p.symbols, p.weights, selectionIdx));
      Step(ScaledReturn(net, scale), TurnoverOf(prev, p.weights), Some(scale), p.weights)
    else
      Step(net, TurnoverOf(prev, p.weights), None, p.weights)
  }

  /**
   * A VolScale variant and its unscaled twin that hold the same pick against the same
   * previous weights trade the same turnover and weights, and the VolScale return is
   * the twin's net return times the exposure factor.
   */
  lemma ScaledTwin(lib: Lib, prices: Prices, p: Pick, target: real, prev: map<string, real>,
                   startIdx: int, endIdx: int, selectionIdx: int, cost: real)
    requires Covered(p)
    ensures var plain := PickStep(lib, prices, p, None, prev, startIdx, endIdx, selectionIdx, cost);
            var scaled := PickStep(lib, prices, p, Some(target), prev, startIdx, endIdx, selectionIdx, cost);
            && scaled.turnover == plain.turnover && scaled.weights == plain.weights
            && scaled.ret == ScaledReturn(plain.ret, scaled.scale.value)
  {
  }

  /** The target a variant scales to, if it is a VolScale variant. */
  function TargetOf(v: Variant): (t: Option<real>)
    ensures t.Some? <==> IsVolScale(v)
  {
    if IsVolScale(v) then Some(TargetVol(TargetKey(v))) else None
  }

  /** What variant v records this month. */
  ghost function GrailStep(lib: Lib, prices: Prices, v: Variant, picks: Picks, regime: Regime,
                           prev: map<string, real>, startIdx: int, endIdx: int, selectionIdx: int): (st: Step)
    requires AllCovered(picks)
    ensures st.scale.Some? <==> IsVolScale(v)
    ensures v != Spy ==> st.weights == Held(v, picks, regime).weights
    ensures v == Spy ==> st.turnover == 0.0
  {
    if v == Spy then SpyStep(prices, startIdx, endIdx)
    else
      HeldIsCovered(v, picks, regime);
      PickStep(lib, prices, Held(v, picks, regime), TargetOf(v), prev, startIdx, endIdx, selectionIdx, TransactionCost)
  }

  /** `calc_monthly_return_with_cost` or its VolScale counterpart for one pick. */
  method PickMonth(lib: Lib, prices: Prices, p: Pick, target: Option<real>, prev: map<string, real>,
                   startIdx: int, endIdx: int, selectionIdx: int, cost: real) returns (st: Step)
    requires Covered(p)
    ensures st == PickStep(lib, prices, p, target, prev, startIdx, endIdx, selectionIdx, cost)
  {
    if target.Some? {
      var scale, _ := VolScaleFactor(lib, prices, p.symbols, p.weights, selectionIdx, target.value);
      var ret, turnover := MonthlyReturnVolScaleWithCost(prices, p.symbols, p.weights, startIdx, endIdx, scale, prev, cost);
      st := Step(ret, turnover, Some(scale), p.weights);
    } else {
      var ret, turnover := MonthlyReturnWithCost(prices, p.symbols, p.weights, startIdx, endIdx, prev, cost);
      st := Step(ret, turnover, None, p.weights);
    }
  }

  /** One variant's block of the month loop. */
  method VariantStep(lib: Lib, prices: Prices, v: Variant, picks: Picks, regime: Regime,
                     prev: map<string, real>, startIdx: int, endIdx: int, selectionIdx: int)
    returns (st: Step)
    requires AllCovered(picks)
    ensures st == GrailStep(lib, prices, v, picks, regime, prev, startIdx, endIdx, selectionIdx)
  {
    if v == Spy {
      st := SpyStep(prices, startIdx, endIdx);
    } else {
      HeldIsCovered(v, picks, regime);
      st := PickMonth(lib, prices, Held(v, picks, regime), TargetOf(v), prev, startIdx, endIdx, selectionIdx, TransactionCost);
    }
  }

  // ---------------------------------------------------------------------------------
  // Per-variant results

  /** A variant's entry of the results dictionary. */
  datatype Track = Track(monthlyReturns: seq<real>, cumulative: real, cumulativeSeries: seq<real>,
                         turnovers: seq<real>, scaleFactors: seq<real>)

  const EmptyTrack: Track := Track([], 1.0, [], [], [])

  /** The return recorded last, `returns[-1]`. */
  function LatestReturn(t: Track): real
    requires |t.monthlyReturns| > 0
  {
    t.monthlyReturns[|t.monthlyReturns| - 1]
  }

  /** Appends one month: the return, the running growth and its series point, the turnover, and the scale if any. */
  function Record(t: Track, st: Step): Track
  {
    var c := t.cumulative * (1.0 + st.ret);
    Track(t.monthlyReturns + [st.ret], c, t.cumulativeSeries + [c], t.turnovers + [st.turnover],
          t.scaleFactors + (if st.scale.Some? then [st.scale.value] else []))
  }

  /**
   * The shape of a track after n months: every list has one entry per month (scale
   * factors only for VolScale variants), the running value is the product of (1 + r),
   * and the series holds the running value after each month.
   */
  ghost predicate TrackOk(t: Track, n: nat, scaled: bool)
  {
    && |t.monthlyReturns| == n && |t.turnovers| == n
    && |t.scaleFactors| == (if scaled then n else 0)
    && t.cumulative == Compound(t.monthlyReturns)
    && t.cumulativeSeries == CompoundSeries(t.monthlyReturns)
  }

  lemma EmptyTrackOk(scaled: bool)
    ensures TrackOk(EmptyTrack, 0, scaled)
  {
  }

  /** Recording a month keeps every list in step and the running value equal to the compounded returns. */
  lemma RecordKeepsTrackOk(t: Track, n: nat, scaled: bool, st: Step)
    requires TrackOk(t, n, scaled) && (st.scale.Some? <==> scaled)
    ensures TrackOk(Record(t, st), n + 1, scaled)
    ensures Record(t, st).monthlyReturns == t.monthlyReturns + [st.ret]
  {
    var rs := t.monthlyReturns + [st.ret];
    CompoundAppend(t.monthlyReturns, st.ret);
    assert rs[..|rs| - 1] == t.monthlyReturns;
  }

  /** `yearly[year] *= 1 + r`, where a year not yet seen starts at 1. */
  function Grow(g: map<int, real>, y: int, r: real): map<int, real>
  {
    g[y := (if y in g then g[y] else 1.0) * (1.0 + r)]
  }

  /** The yearly growth dictionary, built month by month. */
  function YearlyGrowth(rs: seq<real>, ys: seq<int>): map<int, real>
    requires |rs| == |ys|
    decreases |rs|
  {
    if |rs| == 0 then map[]
    else
      var n := |rs| - 1;
      Grow(YearlyGrowth(rs[..n], ys[..n]), ys[n], rs[n])
  }

  /** The returns of the months that fall in year y, in order. */
  function InYear(rs: seq<real>, ys: seq<int>, y: int): (r: seq<real>)
    requires |rs| == |ys|
    ensures |r| <= |rs|
    decreases |rs|
  {
    if |rs| == 0 then []
    else
      var n := |rs| - 1;
      InYear(rs[..n], ys[..n], y) + (if ys[n] == y then [rs[n]] else [])
  }

  /** The yearly dictionary has a key per year seen, holding the compounded growth of that year's months. */
  lemma {:induction false} YearlyGrowthIsCompoundOfYear(rs: seq<real>, ys: seq<int>, y: int)
    requires |rs| == |ys|
    ensures y in YearlyGrowth(rs, ys) <==> y in ys
    ensures y in ys ==> YearlyGrowth(rs, ys)[y] == Compound(InYear(rs, ys, y))
    decreases |rs|
  {
    if |rs| > 0 {
      var n := |rs| - 1;
      YearlyGrowthIsCompoundOfYear(rs[..n], ys[..n], y);
      assert ys == ys[..n] + [ys[n]];
      var before := InYear(rs[..n], ys[..n], y);
      var g := YearlyGrowth(rs[..n], ys[..n]);
      assert YearlyGrowth(rs, ys) == Grow(g, ys[n], rs[n]);
      if ys[n] == y {
        var base := if y in g then g[y] else 1.0;
        if y !in ys[..n] {
          EmptyYear(rs[..n], ys[..n], y);
        }
        assert base == Compound(before);
        assert InYear(rs, ys, y) == before + [rs[n]];
        CompoundAppend(before, rs[n]);
      } else {
        assert InYear(rs, ys, y) == before;
      }
    }
  }

  lemma {:induction false} EmptyYear(rs: seq<real>, ys: seq<int>, y: int)
    requires |rs| == |ys| && y !in ys
    ensures InYear(rs, ys, y) == []
    decreases |rs|
  {
    if |rs| > 0 {
      var n := |rs| - 1;
      assert ys[..n] + [ys[n]] == ys;
      EmptyYear(rs[..n], ys[..n], y);
    }
  }

  lemma YearlyGrowthAppend(rs: seq<real>, ys: seq<int>, r: real, y: int)
    requires |rs| == |ys|
    ensures YearlyGrowth(rs + [r], ys + [y]) == Grow(YearlyGrowth(rs, ys), y, r)
  {
    assert (rs + [r])[..|rs|] == rs && (ys + [y])[..|ys|] == ys;
  }

  /** A month boundary: the first trading day of the month, its label and its calendar year. */
  datatype MonthStart = MonthStart(index: int, monthLabel: string, year: int)

  /** The number of months, among the first n transitions, whose selection day has momentum history. */
  function EligibleMonths(starts: seq<MonthStart>, n: nat): (c: nat)
    requires n <= |starts|
    ensures c <= n
  {
    if n == 0 then 0
    else EligibleMonths(starts, n - 1) + (if starts[n - 1].index - 1 >= MomentumPeriod then 1 else 0)
  }

  /** Every variant's step for the month, each computed from that variant's own previous weights. */
  method MonthSteps(lib: Lib, prices: Prices, prev: map<Variant, map<string, real>>,
                    picks: Picks, regime: Regime, startIdx: int, endIdx: int)
    returns (steps: map<Variant, Step>)
    requires AllCovered(picks)
    ensures forall v :: v in steps
    ensures forall v :: steps[v] == GrailStep(lib, prices, v, picks, regime, PrevOf(prev, v), startIdx, endIdx, startIdx - 1)
  {
    ghost var want := v => GrailStep(lib, prices, v, picks, regime, PrevOf(prev, v), startIdx, endIdx, startIdx - 1);
    AllVariantsListed();
    steps := map[];
    for i := 0 to |AllVariants|
      invariant forall k :: 0 <= k < i ==> AllVariants[k] in steps
      invariant forall v :: v in steps ==> steps[v] == want(v)
    {
      var v := AllVariants[i];
      var st := VariantStep(lib, prices, v, picks, regime, PrevOf(prev, v), startIdx, endIdx, startIdx - 1);
      steps := steps[v := st];
    }
    forall v
      ensures v in steps && steps[v] == want(v)
    {
      var k := Position(v);
    }
  }

  /** Exactly the VolScale variants' steps carry an exposure factor. */
  lemma StepsScaleAsVariants(lib: Lib, prices: Prices, prev: map<Variant, map<string, real>>,
                             picks: Picks, regime: Regime, startIdx: int, endIdx: int, steps: map<Variant, Step>)
    requires AllCovered(picks)
    requires forall v :: v in steps &&
               steps[v] == GrailStep(lib, prices, v, picks, regime, PrevOf(prev, v), startIdx, endIdx, startIdx - 1)
    ensures forall v :: v in steps && (steps[v].scale.Some? <==> IsVolScale(v))
  {
    forall v
      ensures steps[v].scale.Some? <==> IsVolScale(v)
    {
      var st := GrailStep(lib, prices, v, picks, regime, PrevOf(prev, v), startIdx, endIdx, startIdx - 1);
      assert steps[v] == st;
    }
  }

  /** Appends every variant's step to its track, in the order of the results dictionary. */
  method RecordAll(tracks: map<Variant, Track>, steps: map<Variant, Step>) returns (recorded: map<Variant, Track>)
    requires forall v :: v in tracks && v in steps
    ensures forall v :: v in recorded && recorded[v] == Record(tracks[v], steps[v])
  {
    recorded := UpdateVariants(tracks, v => true, v => Record(tracks[v], steps[v]));
  }

  /** `prev_weights[key] = weights` for every variant but SPY, which holds nothing. */
  method CarryWeights(prev: map<Variant, map<string, real>>, steps: map<Variant, Step>)
    returns (held: map<Variant, map<string, real>>)
    requires forall v :: v in steps && (v in prev <==> v != Spy)
    ensures forall v :: (v in held <==> v != Spy) && (v != Spy ==> held[v] == steps[v].weights)
  {
    var touched := v => v != Spy;
    var weights := v => steps[v].weights;
    held := UpdateVariants(prev, touched, weights);
    forall v | v != Spy
      ensures held[v] == steps[v].weights
    {
      assert touched(v) && weights(v) == steps[v].weights;
    }
  }

  /** Multiplies every variant's figure for the year by one plus its latest return. */
  method GrowAll(yearly: map<Variant, map<int, real>>, tracks: map<Variant, Track>, year: int)
    returns (grown: map<Variant, map<int, real>>)
    requires forall v :: v in tracks && v in yearly && |tracks[v].monthlyReturns| > 0
    ensures forall v :: v in grown && grown[v] == Grow(yearly[v], year, LatestReturn(tracks[v]))
  {
    grown := UpdateVariants(yearly, v => true, v => Grow(yearly[v], year, LatestReturn(tracks[v])));
  }

  /** The four `select_*` calls of a month, made on the selection day. */
  method SelectAll(lib: Lib, prices: Prices, u: Universes, idx: int, attackTopN: nat, period: nat) returns (picks: Picks)
    ensures picks == MonthPicks(lib, prices, u, idx, attackTopN, period)
  {
    var d2Selected, d2Weights := Select(lib, prices, u.sp100, idx, attackTopN, period);
    var d3Selected, d3Weights := Select(lib, prices, u.sp500, idx, attackTopN, period);
    var def5Selected, def5Weights := Select(lib, prices, DefenseEtfs, idx, DefenseTopN5, period);
    var def3Selected, def3Weights := Select(lib, prices, DefenseEtfs, idx, DefenseTopN3, period);
    picks := Picks(Pick(d2Selected, d2Weights), Pick(d3Selected, d3Weights),
                   Pick(def5Selected, def5Weights), Pick(def3Selected, def3Weights));
  }

  /**
   * A traded month keeps a track in shape and its yearly dictionary equal to the
   * compounded growth of each year's months.
   */
  lemma MonthKeepsTrack(t: Track, yearly: map<int, real>, years: seq<int>, st: Step, year: int, scaled: bool)
    requires TrackOk(t, |years|, scaled) && (st.scale.Some? <==> scaled)
    requires yearly == YearlyGrowth(t.monthlyReturns, years)
    ensures TrackOk(Record(t, st), |years| + 1, scaled)
    ensures Grow(yearly, year, LatestReturn(Record(t, st))) == YearlyGrowth(Record(t, st).monthlyReturns, years + [year])
  {
    RecordKeepsTrackOk(t, |years|, scaled, st);
    YearlyGrowthAppend(t.monthlyReturns, years, st.ret, year);
  }

  /**
   * The state the month loop keeps: every variant has a track and a yearly dictionary,
   * every variant but SPY has previous weights, every track holds one entry per traded
   * month, and each yearly dictionary is the compounded growth of its year's months.
   */
  ghost predicate TracksOk(tracks: map<Variant, Track>, prev: map<Variant, map<string, real>>,
                           yearly: map<Variant, map<int, real>>, years: seq<int>)
  {
    && (forall v :: v in tracks && v in yearly && (v in prev <==> v != Spy))
    && (forall v :: v in tracks ==> TrackOk(tracks[v], |years|, IsVolScale(v)))
    && (forall v :: v in tracks && v in yearly ==> yearly[v] == YearlyGrowth(tracks[v].monthlyReturns, years))
  }

  /** Recording a step per variant and growing the yearly figures keeps the loop's state. */
  lemma StepsKeepTracksOk(tracks: map<Variant, Track>, prev: map<Variant, map<string, real>>,
                          yearly: map<Variant, map<int, real>>, years: seq<int>, steps: map<Variant, Step>, year: int,
                          recorded: map<Variant, Track>, held: map<Variant, map<string, real>>,
                          grown: map<Variant, map<int, real>>)
    requires TracksOk(tracks, prev, yearly, years)
    requires forall v :: v in steps && (steps[v].scale.Some? <==> IsVolScale(v))
    requires forall v :: v in recorded && recorded[v] == Record(tracks[v], steps[v])
    requires forall v :: v in held <==> v != Spy
    requires forall v :: |recorded[v].monthlyReturns| > 0
    requires forall v :: v in grown && grown[v] == Grow(yearly[v], year, LatestReturn(recorded[v]))
    ensures TracksOk(recorded, held, grown, years + [year])
  {
    var years' := years + [year];
    assert |years'| == |years| + 1;
    forall v
      ensures TrackOk(recorded[v], |years'|, IsVolScale(v))
      ensures grown[v] == YearlyGrowth(recorded[v].monthlyReturns, years')
    {
      VariantKeepsTrack(tracks, yearly, years, steps, year, v);
    }
  }

  /** One variant's part of `StepsKeepTracksOk`. */
  lemma VariantKeepsTrack(tracks: map<Variant, Track>, yearly: map<Variant, map<int, real>>, years: seq<int>,
                          steps: map<Variant, Step>, year: int, v: Variant)
    requires v in tracks && v in yearly && v in steps
    requires TrackOk(tracks[v], |years|, IsVolScale(v)) && (steps[v].scale.Some? <==> IsVolScale(v))
    requires yearly[v] == YearlyGrowth(tracks[v].monthlyReturns, years)
    ensures TrackOk(Record(tracks[v], steps[v]), |years| + 1, IsVolScale(v))
    ensures Grow(yearly[v], year, LatestReturn(Record(tracks[v], steps[v])))
              == YearlyGrowth(Record(tracks[v], steps[v]).monthlyReturns, years + [year])
  {
    MonthKeepsTrack(tracks[v], yearly[v], years, steps[v], year, IsVolScale(v));
  }

  /** Records a traded month's steps in every variant's track, previous weights and yearly figure. */
  method TradeMonth(tracks: map<Variant, Track>, prev: map<Variant, map<string, real>>,
                    yearly: map<Variant, map<int, real>>, ghost years: seq<int>, steps: map<Variant, Step>, year: int)
    returns (recorded: map<Variant, Track>, held: map<Variant, map<string, real>>, grown: map<Variant, map<int, real>>)
    requires TracksOk(tracks, prev, yearly, years)
    requires forall v :: v in steps && (steps[v].scale.Some? <==> IsVolScale(v))
    ensures TracksOk(recorded, held, grown, years + [year])
    ensures forall v :: recorded[v] == Record(tracks[v], steps[v])
    ensures forall v :: v != Spy ==> held[v] == steps[v].weights
    ensures recorded == RecordedTracks(tracks, steps) && held == CarriedWeights(prev, steps)
    ensures grown == GrownYears(yearly, steps, year)
  {
    recorded := RecordAll(tracks, steps);
    held := CarryWeights(prev, steps);
    grown := GrowAll(yearly, recorded, year);
    StepsKeepTracksOk(tracks, prev, yearly, years, steps, year, recorded, held, grown);
    RecordedMap(tracks, steps, recorded);
    CarriedMap(prev, steps, held);
    GrownMap(yearly, tracks, steps, year, grown);
  }

  // ---------------------------------------------------------------------------------
  // The month loop as a function of the state

  /** The loop's whole state as a value: results, previous weights, yearly growth, and the logs. */
  datatype Book = Book(tracks: map<Variant, Track>, prevWeights: map<Variant, map<string, real>>,
                       yearly: map<Variant, map<int, real>>, months: seq<string>, regimes: seq<Regime>,
                       years: seq<int>)

  /** What the loop keeps: the tracks in shape, and the month and regime logs running together. */
  ghost predicate BookOk(b: Book)
  {
    TracksOk(b.tracks, b.prevWeights, b.yearly, b.years) && |b.months| == |b.regimes| >= |b.years|
  }

  /** Every variant's step for the month, each from its own previous weights. */
  ghost function StepsOf(lib: Lib, prices: Prices, prev: map<Variant, map<string, real>>,
                         picks: Picks, regime: Regime, startIdx: int, endIdx: int): (steps: map<Variant, Step>)
    requires AllCovered(picks)
    ensures forall v :: v in steps &&
              steps[v] == GrailStep(lib, prices, v, picks, regime, PrevOf(prev, v), startIdx, endIdx, startIdx - 1)
  {
    AllVariantsListed();
    map v | v in AllVariants :: GrailStep(lib, prices, v, picks, regime, PrevOf(prev, v), startIdx, endIdx, startIdx - 1)
  }

  ghost function RecordedTracks(tracks: map<Variant, Track>, steps: map<Variant, Step>): map<Variant, Track>
    requires forall v :: v in steps
  {
    map v | v in tracks :: Record(tracks[v], steps[v])
  }

  ghost function CarriedWeights(prev: map<Variant, map<string, real>>, steps: map<Variant, Step>): map<Variant, map<string, real>>
    requires forall v :: v in steps
  {
    map v | v in prev :: steps[v].weights
  }

  ghost function GrownYears(yearly: map<Variant, map<int, real>>, steps: map<Variant, Step>, year: int): map<Variant, map<int, real>>
    requires forall v :: v in steps
  {
    map v | v in yearly :: Grow(yearly[v], year, steps[v].ret)
  }

  /**
   * The state after a traded month: every variant's step appended to its track, its
   * weights carried as its previous weights, its year grown by its return, and the
   * month's year recorded.
   */
  ghost function Traded(b: Book, steps: map<Variant, Step>, year: int): Book
    requires forall v :: v in steps
  {
    b.(tracks := RecordedTracks(b.tracks, steps), prevWeights := CarriedWeights(b.prevWeights, steps),
       yearly := GrownYears(b.yearly, steps, year), years := b.years + [year])
  }

  /**
   * One pass of the month loop on the selection day's picks: nothing before 126 days of
   * history; after that the month and its regime are logged, and the month is traded only
   * when all four selections are non-empty.
   */
  ghost function LoggedMonth(b: Book, lib: Lib, prices: Prices, picks: Picks, startIdx: int, endIdx: int,
                             monthLabel: string, year: int): Book
    requires AllCovered(picks)
  {
    var selectionIdx := startIdx - 1;
    if selectionIdx < MomentumPeriod then b
    else
      var regime := RegimeAt(prices, selectionIdx);
      var logged := b.(months := b.months + [monthLabel], regimes := b.regimes + [regime]);
      if !AllSelected(picks) then logged
      else Traded(logged, StepsOf(lib, prices, b.prevWeights, picks, regime, startIdx, endIdx), year)
  }

  /** picks[k] holds the four selections made on the day before month k starts. */
  ghost predicate SelectionsMade(lib: Lib, prices: Prices, u: Universes, starts: seq<MonthStart>, picks: seq<Picks>)
  {
    && |picks| <= |starts|
    && (forall k, day :: 0 <= k < |picks| && day == starts[k].index - 1 ==>
          picks[k] == MonthPicks(lib, prices, u, day, AttackTopN, MomentumPeriod))
    && (forall k :: 0 <= k < |picks| ==> AllCovered(picks[k]))
  }

  /** Appending the next month's selections keeps `SelectionsMade`. */
  lemma SelectionsMadeAppend(lib: Lib, prices: Prices, u: Universes, starts: seq<MonthStart>, picks: seq<Picks>, p: Picks)
    requires SelectionsMade(lib, prices, u, starts, picks) && |picks| < |starts| && AllCovered(p)
    requires forall day :: day == starts[|picks|].index - 1 ==> p == MonthPicks(lib, prices, u, day, AttackTopN, MomentumPeriod)
    ensures SelectionsMade(lib, prices, u, starts, picks + [p])
  {
    var more := picks + [p];
    forall k, day | 0 <= k < |more| && day == starts[k].index - 1
      ensures more[k] == MonthPicks(lib, prices, u, day, AttackTopN, MomentumPeriod)
    {
      if k < |picks| {
        assert more[k] == picks[k];
      }
    }
  }

  /** The state after the first n passes of the month loop, pass i trading on picks[i]. */
  ghost function GrailMonths(b: Book, lib: Lib, prices: Prices, picks: seq<Picks>, starts: seq<MonthStart>, n: nat): Book
    requires n <= |picks| && (n == 0 || n < |starts|)
    requires forall i :: 0 <= i < n ==> AllCovered(picks[i])
  {
    if n == 0 then b
    else
      LoggedMonth(GrailMonths(b, lib, prices, picks, starts, n - 1), lib, prices, picks[n - 1],
                  starts[n - 1].index, starts[n].index - 1, starts[n - 1].monthLabel, starts[n - 1].year)
  }

  /** The first n passes depend only on the first n selections. */
  lemma {:induction false} GrailMonthsPrefix(b: Book, lib: Lib, prices: Prices, picks: seq<Picks>, more: seq<Picks>,
                                             starts: seq<MonthStart>, n: nat)
    requires n <= |picks| && (n == 0 || n < |starts|)
    requires forall i :: 0 <= i < n ==> AllCovered(picks[i])
    ensures GrailMonths(b, lib, prices, picks + more, starts, n) == GrailMonths(b, lib, prices, picks, starts, n)
  {
    if n > 0 {
      GrailMonthsPrefix(b, lib, prices, picks, more, starts, n - 1);
      assert (picks + more)[n - 1] == picks[n - 1];
    }
  }

  /** A state one pass after the state of the first i passes is the state of i + 1 passes. */
  lemma GrailMonthsStep(b: Book, before: Book, after: Book, lib: Lib, prices: Prices, picks: seq<Picks>, p: Picks,
                        starts: seq<MonthStart>, i: nat)
    requires |picks| == i && i + 1 < |starts| && AllCovered(p)
    requires forall j :: 0 <= j < i ==> AllCovered(picks[j])
    requires before == GrailMonths(b, lib, prices, picks, starts, i)
    requires after == LoggedMonth(before, lib, prices, p, starts[i].index, starts[i + 1].index - 1,
                                  starts[i].monthLabel, starts[i].year)
    ensures after == GrailMonths(b, lib, prices, picks + [p], starts, i + 1)
  {
    GrailMonthsPrefix(b, lib, prices, picks, [p], starts, i);
    assert (picks + [p])[i] == p;
  }

  /**
   * The month loop so far: picks holds the selections of the first |picks| months, and
   * the state now is the state from b on after those months.
   */
  ghost predicate MonthsSoFar(b: Book, now: Book, lib: Lib, prices: Prices, u: Universes,
                              starts: seq<MonthStart>, picks: seq<Picks>)
  {
    && SelectionsMade(lib, prices, u, starts, picks)
    && (|picks| == 0 || |picks| < |starts|)
    && now == GrailMonths(b, lib, prices, picks, starts, |picks|)
  }

  /** One more pass of the loop, logged on the selections made for it, extends `MonthsSoFar`. */
  lemma MonthsSoFarNext(b: Book, before: Book, after: Book, lib: Lib, prices: Prices, u: Universes,
                        starts: seq<MonthStart>, picks: seq<Picks>, i: nat, p: Picks)
    requires MonthsSoFar(b, before, lib, prices, u, starts, picks) && |picks| == i && i + 1 < |starts| && AllCovered(p)
    requires forall day :: day == starts[i].index - 1 ==> p == MonthPicks(lib, prices, u, day, AttackTopN, MomentumPeriod)
    requires after == LoggedMonth(before, lib, prices, p, starts[i].index, starts[i + 1].index - 1,
                                  starts[i].monthLabel, starts[i].year)
    ensures MonthsSoFar(b, after, lib, prices, u, starts, picks + [p])
  {
    SelectionsMadeAppend(lib, prices, u, starts, picks, p);
    GrailMonthsStep(b, before, after, lib, prices, picks, p, starts, i);
  }

  /** The month log grows by one for every month whose selection day has momentum history. */
  lemma {:induction false} GrailMonthsLogEligible(b: Book, lib: Lib, prices: Prices, picks: seq<Picks>,
                                                  starts: seq<MonthStart>, n: nat)
    requires n <= |picks| && (n == 0 || n < |starts|)
    requires forall i :: 0 <= i < n ==> AllCovered(picks[i])
    ensures |GrailMonths(b, lib, prices, picks, starts, n).months| == |b.months| + EligibleMonths(starts, n)
    ensures |GrailMonths(b, lib, prices, picks, starts, n).regimes| == |b.regimes| + EligibleMonths(starts, n)
  {
    if n > 0 {
      GrailMonthsLogEligible(b, lib, prices, picks, starts, n - 1);
      LoggedMonthLogs(GrailMonths(b, lib, prices, picks, starts, n - 1), lib, prices, picks[n - 1],
                      starts[n - 1].index, starts[n].index - 1, starts[n - 1].monthLabel, starts[n - 1].year);
    }
  }

  /**
   * A pass trades exactly when the selection day has momentum history and all four
   * selections are non-empty: then every variant's track gets its step for the month and
   * every variant but SPY holds what it traded; otherwise no track, weight or yearly
   * figure changes.
   */
  lemma LoggedMonthTradesIff(b: Book, lib: Lib, prices: Prices, picks: Picks, startIdx: int, endIdx: int,
                             monthLabel: string, year: int)
    requires AllCovered(picks) && BookOk(b)
    ensures var after := LoggedMonth(b, lib, prices, picks, startIdx, endIdx, monthLabel, year);
            after.years == b.years + [year] <==> startIdx - 1 >= MomentumPeriod && AllSelected(picks)
    ensures var after := LoggedMonth(b, lib, prices, picks, startIdx, endIdx, monthLabel, year);
            startIdx - 1 >= MomentumPeriod && AllSelected(picks) ==>
              var regime := RegimeAt(prices, startIdx - 1);
              && (forall v :: after.tracks[v] == Record(b.tracks[v],
                    GrailStep(lib, prices, v, picks, regime, PrevOf(b.prevWeights, v), startIdx, endIdx, startIdx - 1)))
              && (forall v :: v != Spy ==> after.prevWeights[v] == Held(v, picks, regime).weights)
    ensures var after := LoggedMonth(b, lib, prices, picks, startIdx, endIdx, monthLabel, year);
            !(startIdx - 1 >= MomentumPeriod && AllSelected(picks)) ==>
              after.tracks == b.tracks && after.prevWeights == b.prevWeights && after.yearly == b.yearly
              && after.years == b.years
  {
    var after := LoggedMonth(b, lib, prices, picks, startIdx, endIdx, monthLabel, year);
    if startIdx - 1 >= MomentumPeriod && AllSelected(picks) {
      var regime := RegimeAt(prices, startIdx - 1);
      var steps := StepsOf(lib, prices, b.prevWeights, picks, regime, startIdx, endIdx);
      forall v
        ensures after.tracks[v] == Record(b.tracks[v],
                  GrailStep(lib, prices, v, picks, regime, PrevOf(b.prevWeights, v), startIdx, endIdx, startIdx - 1))
        ensures v != Spy ==> after.prevWeights[v] == Held(v, picks, regime).weights
      {
        assert v in b.tracks && (v != Spy ==> v in b.prevWeights);
      }
    }
  }

  /** Recording a traded month keeps the loop's state. */
  lemma TradedKeepsBookOk(b: Book, steps: map<Variant, Step>, year: int)
    requires BookOk(b) && |b.months| > |b.years|
    requires forall v :: v in steps && (steps[v].scale.Some? <==> IsVolScale(v))
    ensures BookOk(Traded(b, steps, year))
  {
    RecordedTracksAll(b.tracks, steps);
    GrownYearsAll(b.tracks, b.yearly, steps, year);
    StepsKeepTracksOk(b.tracks, b.prevWeights, b.yearly, b.years, steps, year,
                      RecordedTracks(b.tracks, steps), CarriedWeights(b.prevWeights, steps), GrownYears(b.yearly, steps, year));
  }

  /** `Traded`'s tracks hold every variant's track with its step appended. */
  lemma RecordedTracksAll(tracks: map<Variant, Track>, steps: map<Variant, Step>)
    requires forall v :: v in steps && v in tracks
    ensures forall v :: v in RecordedTracks(tracks, steps) && RecordedTracks(tracks, steps)[v] == Record(tracks[v], steps[v])
    ensures forall v :: |RecordedTracks(tracks, steps)[v].monthlyReturns| > 0
  {
  }

  /** `Traded`'s yearly figures grow every variant's year by its step's return. */
  lemma GrownYearsAll(tracks: map<Variant, Track>, yearly: map<Variant, map<int, real>>, steps: map<Variant, Step>, year: int)
    requires forall v :: v in steps && v in tracks && v in yearly
    ensures forall v :: v in GrownYears(yearly, steps, year) &&
              GrownYears(yearly, steps, year)[v] == Grow(yearly[v], year, LatestReturn(Record(tracks[v], steps[v])))
  {
    forall v
      ensures LatestReturn(Record(tracks[v], steps[v])) == steps[v].ret
    {
    }
  }

  /** A pass of the loop keeps the state the loop relies on. */
  lemma LoggedMonthKeepsBookOk(b: Book, lib: Lib, prices: Prices, picks: Picks, startIdx: int, endIdx: int,
                               monthLabel: string, year: int)
    requires AllCovered(picks) && BookOk(b)
    ensures BookOk(LoggedMonth(b, lib, prices, picks, startIdx, endIdx, monthLabel, year))
  {
    if startIdx - 1 >= MomentumPeriod && AllSelected(picks) {
      var regime := RegimeAt(prices, startIdx - 1);
      var steps := StepsOf(lib, prices, b.prevWeights, picks, regime, startIdx, endIdx);
      StepsScaleAsVariants(lib, prices, b.prevWeights, picks, regime, startIdx, endIdx, steps);
      TradedKeepsBookOk(b.(months := b.months + [monthLabel], regimes := b.regimes + [regime]), steps, year);
    }
  }

  /** Every number of passes keeps the loop's state. */
  lemma {:induction false} GrailMonthsKeepBookOk(b: Book, lib: Lib, prices: Prices, picks: seq<Picks>,
                                                 starts: seq<MonthStart>, n: nat)
    requires n <= |picks| && (n == 0 || n < |starts|)
    requires forall i :: 0 <= i < n ==> AllCovered(picks[i])
    requires BookOk(b)
    ensures BookOk(GrailMonths(b, lib, prices, picks, starts, n))
  {
    if n > 0 {
      GrailMonthsKeepBookOk(b, lib, prices, picks, starts, n - 1);
      LoggedMonthKeepsBookOk(GrailMonths(b, lib, prices, picks, starts, n - 1), lib, prices, picks[n - 1],
                             starts[n - 1].index, starts[n].index - 1, starts[n - 1].monthLabel, starts[n - 1].year);
    }
  }

  /** A pass logs its month and regime exactly when the selection day has momentum history. */
  lemma LoggedMonthLogs(b: Book, lib: Lib, prices: Prices, picks: Picks, startIdx: int, endIdx: int,
                        monthLabel: string, year: int)
    requires AllCovered(picks)
    ensures var after := LoggedMonth(b, lib, prices, picks, startIdx, endIdx, monthLabel, year);
            var logged := if startIdx - 1 >= MomentumPeriod then 1 else 0;
            |after.months| == |b.months| + logged && |after.regimes| == |b.regimes| + logged
  {
  }

  /** `RecordAll`'s result is `RecordedTracks`. */
  lemma RecordedMap(tracks: map<Variant, Track>, steps: map<Variant, Step>, recorded: map<Variant, Track>)
    requires forall v :: v in tracks && v in steps && v in recorded && recorded[v] == Record(tracks[v], steps[v])
    ensures recorded == RecordedTracks(tracks, steps)
  {
  }

  /** `CarryWeights`'s result is `CarriedWeights`. */
  lemma CarriedMap(prev: map<Variant, map<string, real>>, steps: map<Variant, Step>, held: map<Variant, map<string, real>>)
    requires forall v :: v in steps && (v in prev <==> v != Spy) && (v in held <==> v != Spy)
    requires forall v :: v != Spy ==> held[v] == steps[v].weights
    ensures held == CarriedWeights(prev, steps)
  {
  }

  /** `GrowAll`'s result is `GrownYears`. */
  lemma GrownMap(yearly: map<Variant, map<int, real>>, tracks: map<Variant, Track>, steps: map<Variant, Step>,
                 year: int, grown: map<Variant, map<int, real>>)
    requires forall v :: v in steps && v in tracks && v in yearly && v in grown
    requires forall v :: grown[v] == Grow(yearly[v], year, LatestReturn(Record(tracks[v], steps[v])))
    ensures grown == GrownYears(yearly, steps, year)
  {
    forall v
      ensures grown[v] == Grow(yearly[v], year, steps[v].ret)
    {
      assert LatestReturn(Record(tracks[v], steps[v])) == steps[v].ret;
    }
  }

  /** A month's steps computed by `MonthSteps` are `StepsOf`. */
  lemma StepsAreStepsOf(lib: Lib, prices: Prices, prev: map<Variant, map<string, real>>,
                        picks: Picks, regime: Regime, startIdx: int, endIdx: int, steps: map<Variant, Step>)
    requires AllCovered(picks)
    requires forall v :: v in steps &&
               steps[v] == GrailStep(lib, prices, v, picks, regime, PrevOf(prev, v), startIdx, endIdx, startIdx - 1)
    ensures steps == StepsOf(lib, prices, prev, picks, regime, startIdx, endIdx)
  {
  }

  class GrailBacktest {
    var tracks: map<Variant, Track>
    var prevWeights: map<Variant, map<string, real>>
    var yearly: map<Variant, map<int, real>>
    var months: seq<string>
    var regimes: seq<Regime>
    /** The calendar year of each traded month. */
    ghost var years: seq<int>

    /**
     * Every variant has a track and a yearly dictionary, every variant but SPY has
     * previous weights, all tracks hold one entry per traded month, and the month and
     * regime lists run together and are at least as long as the tracks.
     */
    ghost predicate Valid()
      reads this
    {
      TracksOk(tracks, prevWeights, yearly, years) && |months| == |regimes| >= |years|
    }

    /** The fields as one value. */
    ghost function State(): Book
      reads this
    {
      Book(tracks, prevWeights, yearly, months, regimes, years)
    }

    constructor ()
      ensures Valid()
      ensures months == [] && regimes == [] && years == []
      ensures forall v :: v in tracks && tracks[v] == EmptyTrack
      ensures forall v :: v != Spy ==> v in prevWeights && prevWeights[v] == map[]
    {
      AllVariantsListed();
      tracks := map v | v in AllVariants :: EmptyTrack;
      prevWeights := map v | v in AllVariants && v != Spy :: map[];
      yearly := map v | v in AllVariants :: map[];
      months := [];
      regimes := [];
      years := [];
    }

    /**
     * The trading half of a month: every variant records its step, takes the weights
     * it now holds as its previous weights and grows its yearly figure.
     */
    method RecordMonth(steps: map<Variant, Step>, year: int)
      requires Valid() && |months| > |years|
      requires forall v :: v in steps && (steps[v].scale.Some? <==> IsVolScale(v))
      modifies this
      ensures Valid()
      ensures months == old(months) && regimes == old(regimes) && years == old(years) + [year]
      ensures forall v :: tracks[v] == Record(old(tracks)[v], steps[v])
      ensures forall v :: v != Spy ==> prevWeights[v] == steps[v].weights
      ensures State() == Traded(old(State()), steps, year)
    {
      tracks, prevWeights, yearly := TradeMonth(tracks, prevWeights, yearly, years, steps, year);
      years := years + [year];
    }

    /** Every variant trades the month on the given selections. */
    method TradeSelected(lib: Lib, prices: Prices, picks: Picks, regime: Regime, startIdx: int, endIdx: int, year: int)
      requires Valid() && |months| > |years| && AllCovered(picks)
      modifies this
      ensures Valid()
      ensures months == old(months) && regimes == old(regimes) && years == old(years) + [year]
      ensures forall v :: tracks[v] == Record(old(tracks)[v],
        GrailStep(lib, prices, v, picks, regime, PrevOf(old(prevWeights), v), startIdx, endIdx, startIdx - 1))
      ensures forall v :: v != Spy ==> prevWeights[v] == Held(v, picks, regime).weights
      ensures State() == Traded(old(State()), StepsOf(lib, prices, old(prevWeights), picks, regime, startIdx, endIdx), year)
    {
      var steps := MonthSteps(lib, prices, prevWeights, picks, regime, startIdx, endIdx);
      StepsScaleAsVariants(lib, prices, prevWeights, picks, regime, startIdx, endIdx, steps);
      StepsAreStepsOf(lib, prices, prevWeights, picks, regime, startIdx, endIdx, steps);
      RecordMonth(steps, year);
    }

    /**
     * The body of the month loop once the selections of the selection day (the day
     * before the month starts) are made.  Nothing happens before 126 days of history;
     * after that the month and its regime are logged, and the month is traded when all
     * four selections exist.
     */
    method LogAndTrade(lib: Lib, prices: Prices, picks: Picks, startIdx: int, endIdx: int, monthLabel: string, year: int)
      requires Valid() && AllCovered(picks)
      modifies this
      ensures Valid()
      ensures |months| == |old(months)| + (if startIdx - 1 >= MomentumPeriod then 1 else 0)
      ensures startIdx - 1 < MomentumPeriod ==>
        months == old(months) && regimes == old(regimes) && years == old(years)
        && tracks == old(tracks) && prevWeights == old(prevWeights) && yearly == old(yearly)
      ensures startIdx - 1 >= MomentumPeriod ==>
        months == old(months) + [monthLabel] && regimes == old(regimes) + [RegimeAt(prices, startIdx - 1)]
      ensures startIdx - 1 >= MomentumPeriod && !AllSelected(picks) ==>
        years == old(years) && tracks == old(tracks) && prevWeights == old(prevWeights) && yearly == old(yearly)
      ensures startIdx - 1 >= MomentumPeriod && AllSelected(picks) ==>
        && years == old(years) + [year]
        && (forall v :: tracks[v] == Record(old(tracks)[v],
              GrailStep(lib, prices, v, picks, RegimeAt(prices, startIdx - 1),
                        PrevOf(old(prevWeights), v), startIdx, endIdx, startIdx - 1)))
        && (forall v :: v != Spy ==> prevWeights[v] == Held(v, picks, RegimeAt(prices, startIdx - 1)).weights)
      ensures State() == LoggedMonth(old(State()), lib, prices, picks, startIdx, endIdx, monthLabel, year)
    {
      var selectionIdx := startIdx - 1;
      if selectionIdx < MomentumPeriod {
        return;
      }
      months := months + [monthLabel];
      var regime := RegimeAt(prices, selectionIdx);
      regimes := regimes + [regime];
      if !AllSelected(picks) {
        return;
      }
      TradeSelected(lib, prices, picks, regime, startIdx, endIdx, year);
    }

    /** One iteration of the month loop: select on the day before the month starts, then log and trade. */
    method StepMonth(lib: Lib, prices: Prices, u: Universes, startIdx: int, endIdx: int, monthLabel: string, year: int)
      returns (picks: Picks)
      requires Valid()
      modifies this
      ensures Valid()
      ensures |months| == |old(months)| + (if startIdx - 1 >= MomentumPeriod then 1 else 0)
      ensures forall day :: day == startIdx - 1 ==> picks == MonthPicks(lib, prices, u, day, AttackTopN, MomentumPeriod)
      ensures AllCovered(picks)
      ensures State() == LoggedMonth(old(State()), lib, prices, picks, startIdx, endIdx, monthLabel, year)
    {
      picks := SelectAll(lib, prices, u, startIdx - 1, AttackTopN, MomentumPeriod);
      LogAndTrade(lib, prices, picks, startIdx, endIdx, monthLabel, year);
    }

    /** One pass of the month loop, as part of the run from b over the month starts. */
    method NextMonth(lib: Lib, prices: Prices, u: Universes, starts: seq<MonthStart>, i: nat,
                     ghost b: Book, ghost picks: seq<Picks>)
      returns (ghost more: seq<Picks>)
      requires Valid() && MonthsSoFar(b, State(), lib, prices, u, starts, picks) && |picks| == i && i + 1 < |starts|
      modifies this
      ensures Valid() && MonthsSoFar(b, State(), lib, prices, u, starts, more) && |more| == |picks| + 1
    {
      ghost var before := State();
      var p := StepMonth(lib, prices, u, starts[i].index, starts[i + 1].index - 1, starts[i].monthLabel, starts[i].year);
      MonthsSoFarNext(b, before, State(), lib, prices, u, starts, picks, i, p);
      more := picks + [p];
    }

    /**
     * The month loop over consecutive month starts: month i runs from its first day to
     * the day before month i + 1 starts, on the selections of the day before it starts.
     * Every month with enough history is logged.
     */
    method Run(lib: Lib, prices: Prices, u: Universes, starts: seq<MonthStart>) returns (ghost picks: seq<Picks>)
      requires Valid()
      modifies this
      ensures Valid()
      ensures |starts| >= 1 ==> |months| == |old(months)| + EligibleMonths(starts, |starts| - 1)
      ensures |starts| <= 1 ==> months == old(months)
      ensures |picks| == (if |starts| <= 1 then 0 else |starts| - 1)
      ensures MonthsSoFar(old(State()), State(), lib, prices, u, starts, picks)
    {
      picks := [];
      if |starts| <= 1 {
        return;
      }
      for i := 0 to |starts| - 1
        invariant Valid() && |picks| == i
        invariant MonthsSoFar(old(State()), State(), lib, prices, u, starts, picks)
      {
        picks := NextMonth(lib, prices, u, starts, i, old(State()), picks);
      }
      GrailMonthsLogEligible(old(State()), lib, prices, picks, starts, |picks|);
    }
  }

  // ---------------------------------------------------------------------------------
  // Regime switches

  /** A change of regime between consecutive logged months. */
  datatype Switch = Switch(month: string, from: Regime, to: Regime)

  /** The switches among the first n logged months. */
  function Switches(months: seq<string>, regimes: seq<Regime>, n: nat): seq<Switch>
    requires |months| == |regimes| && n <= |regimes|
  {
    if n <= 1 then []
    else
      Switches(months, regimes, n - 1)
      + (if regimes[n - 1] != regimes[n - 2] then [Switch(months[n - 1], regimes[n - 2], regimes[n - 1])] else [])
  }

  /** `regime_switches`: every logged month whose regime differs from the month before. */
  method RegimeSwitches(months: seq<string>, regimes: seq<Regime>) returns (switches: seq<Switch>)
    requires |months| == |regimes|
    ensures switches == Switches(months, regimes, |regimes|)
  {
    switches := [];
    if |regimes| < 2 {
      return;
    }
    for i := 1 to |regimes|
      invariant switches == Switches(months, regimes, i)
    {
      if regimes[i] != regimes[i - 1] {
        switches := switches + [Switch(months[i], regimes[i - 1], regimes[i])];
      }
    }
  }

  /** A switch is listed exactly for each month whose regime differs from the previous month's. */
  lemma {:induction false} SwitchesAreChanges(months: seq<string>, regimes: seq<Regime>, n: nat, w: Switch)
    requires |months| == |regimes| && n <= |regimes|
    ensures w in Switches(months, regimes, n) <==>
      exists i :: 1 <= i < n && regimes[i] != regimes[i - 1] && w == Switch(months[i], regimes[i - 1], regimes[i])
    decreases n
  {
    if n > 1 {
      SwitchesAreChanges(months, regimes, n - 1, w);
    }
  }

  /** Each switch leaves the regime the previous switch entered. */
  lemma {:induction false} SwitchesChain(months: seq<string>, regimes: seq<Regime>, n: nat)
    requires |months| == |regimes| && n <= |regimes|
    ensures var s := Switches(months, regimes, n);
      (forall k :: 0 <= k < |s| ==> s[k].from != s[k].to)
      && (forall k :: 0 < k < |s| ==> s[k].from == s[k - 1].to)
      && (|s| > 0 ==> s[|s| - 1].to == regimes[n - 1])
    decreases n
  {
    if n > 1 {
      SwitchesChain(months, regimes, n - 1);
      var s := Switches(months, regimes, n - 1);
      if |s| > 0 {
        LastSwitchIsCurrent(months, regimes, n - 1);
      } else {
        NoSwitchMeansConstant(months, regimes, n - 1);
      }
    }
  }

  /** Without a switch in the first n months they all share the first month's regime. */
  lemma {:induction false} NoSwitchMeansConstant(months: seq<string>, regimes: seq<Regime>, n: nat)
    requires |months| == |regimes| && 1 <= n <= |regimes|
    requires Switches(months, regimes, n) == []
    ensures regimes[n - 1] == regimes[0]
    decreases n
  {
    if n > 1 {
      NoSwitchMeansConstant(months, regimes, n - 1);
    }
  }

  /** With a switch in the first n months, the last one entered the regime of month n. */
  lemma {:induction false} LastSwitchIsCurrent(months: seq<string>, regimes: seq<Regime>, n: nat)
    requires |months| == |regimes| && 1 <= n <= |regimes|
    requires Switches(months, regimes, n) != []
    ensures var s := Switches(months, regimes, n); s[|s| - 1].to == regimes[n - 1]
    decreases n
  {
    if n > 1 && regimes[n - 1] == regimes[n - 2] {
      LastSwitchIsCurrent(months, regimes, n - 1);
    }
  }
}
