/**
 * The parameterised engine of the robustness script (`run_strategy_simulation`): the same
 * thirteen variants on the same primitives, with the momentum period, the attack top-N,
 * the cost rate, one VolScale target and a rebalance-day offset as parameters.  Unlike the
 * 13-variant backtest, a month is skipped for everyone only when the selection day lacks
 * momentum history; otherwise each variant skips on its own when its selection is empty,
 * and SPY records nothing for a month whose closes are unusable.
 */
module RobustEngine {
  import opened Numerics
  import opened Signals
  import opened Accounting
  import opened Strategies
  import opened GrailEngine

  /** The keyword arguments of the simulation. */
  datatype Params = Params(momentumPeriod: nat, topN: nat, cost: real, targetVol: real, offset: int)

  const DefaultParams: Params := Params(126, 5, 0.002, 0.14, 0)

  /** D2 and D3 VolScale aim 36% above the common target. */
  const AttackTargetBoost: real := 1.36

  /** The first trading day after the rebalance offset, never later than the day before the next month. */
  function RebalanceStart(start: int, next: int, offset: int): (s: int)
    ensures s <= next - 1
    ensures start + offset <= next - 1 ==> s == start + offset
    ensures start + offset > next - 1 ==> s == next - 1
  {
    if start + offset < next - 1 then start + offset else next - 1
  }

  /** The target a variant scales to: boosted for D2 and D3 VolScale, the plain target for the other VolScale variants. */
  function RobustTarget(prm: Params, v: Variant): (t: Option<real>)
    ensures t.Some? <==> IsVolScale(v)
    ensures v.D2VolScale? || v.D3VolScale? ==> t == Some(prm.targetVol * AttackTargetBoost)
    ensures IsVolScale(v) && !v.D2VolScale? && !v.D3VolScale? ==> t == Some(prm.targetVol)
  {
    if v.D2VolScale? || v.D3VolScale? then Some(prm.targetVol * AttackTargetBoost)
    else if IsVolScale(v) then Some(prm.targetVol)
    else None
  }

  /**
   * What variant v appends this month, if anything.  SPY appends its buy-and-hold return
   * when both closes are usable.  Any other variant appends only when the selection it
   * holds is non-empty: its net return at the configured cost, scaled for a VolScale
   * variant by the factor measured on the selection day, the day before the month starts.
   */
  ghost function RobustStep(lib: Lib, prices: Prices, prm: Params, v: Variant, picks: Picks, regime: Regime,
                            prev: map<string, real>, startIdx: int, endIdx: int): (st: Option<Step>)
    requires AllCovered(picks)
    ensures v == Spy ==> (st.Some? <==> SpyReturn(prices, startIdx, endIdx).Some?)
    ensures v == Spy && st.Some? ==> st.value == Step(SpyReturn(prices, startIdx, endIdx).value, 0.0, None, map[])
    ensures v != Spy ==> (st.Some? <==> Held(v, picks, regime).symbols != [])
    ensures v != Spy && st.Some? ==>
      st.value.weights == Held(v, picks, regime).weights && (st.value.scale.Some? <==> IsVolScale(v))
    ensures st.Some? && st.value.scale.Some? ==> VolScaleMin <= st.value.scale.value <= VolScaleMax
  {
    if v == Spy then
      var r := SpyReturn(prices, startIdx, endIdx);
      if r.Some? then Some(Step(r.value, 0.0, None, map[])) else None
    else
      HeldIsCovered(v, picks, regime);
      var h := Held(v, picks, regime);
      if h.symbols == [] then None
      else Some(PickStep(lib, prices, h, RobustTarget(prm, v), prev, startIdx, endIdx, startIdx - 1, prm.cost))
  }

  /**
   * A VolScale variant and its unscaled twin, trading from the same previous weights,
   * skip the same months, and in a month they trade they have the same turnover and
   * weights while the VolScale return is the twin's return times the factor.
   */
  lemma TwinSteps(lib: Lib, prices: Prices, prm: Params, v: Variant, picks: Picks, regime: Regime,
                  prev: map<string, real>, startIdx: int, endIdx: int)
    requires IsVolScale(v) && AllCovered(picks)
    ensures var a := RobustStep(lib, prices, prm, v, picks, regime, prev, startIdx, endIdx);
            var b := RobustStep(lib, prices, prm, Unscaled(v), picks, regime, prev, startIdx, endIdx);
            && (a.Some? <==> b.Some?)
            && (a.Some? ==> a.value.turnover == b.value.turnover && a.value.weights == b.value.weights
                            && a.value.ret == ScaledReturn(b.value.ret, a.value.scale.value))
  {
    var u := Unscaled(v);
    assert Held(v, picks, regime) == Held(u, picks, regime);
    var h := Held(v, picks, regime);
    HeldStep(lib, prices, prm, v, picks, regime, prev, startIdx, endIdx);
    HeldStep(lib, prices, prm, u, picks, regime, prev, startIdx, endIdx);
    if h.symbols != [] {
      var target := RobustTarget(prm, v);
      assert RobustTarget(prm, u) == None;
      ScaledTwin(lib, prices, h, target.value, prev, startIdx, endIdx, startIdx - 1, prm.cost);
    }
  }

  /** The step of a variant other than SPY is the step of the pick it holds, when that pick is not empty. */
  lemma HeldStep(lib: Lib, prices: Prices, prm: Params, v: Variant, picks: Picks, regime: Regime,
                 prev: map<string, real>, startIdx: int, endIdx: int)
    requires v != Spy && AllCovered(picks)
    ensures Covered(Held(v, picks, regime))
    ensures RobustStep(lib, prices, prm, v, picks, regime, prev, startIdx, endIdx) ==
              if Held(v, picks, regime).symbols == [] then None
              else Some(PickStep(lib, prices, Held(v, picks, regime), RobustTarget(prm, v), prev, startIdx, endIdx, startIdx - 1, prm.cost))
  {
    HeldIsCovered(v, picks, regime);
  }

  /** One variant's block of the month loop. */
  method RobustVariantStep(lib: Lib, prices: Prices, prm: Params, v: Variant, picks: Picks, regime: Regime,
                           prev: map<string, real>, startIdx: int, endIdx: int)
    returns (st: Option<Step>)
    requires AllCovered(picks)
    ensures st == RobustStep(lib, prices, prm, v, picks, regime, prev, startIdx, endIdx)
  {
    if v == Spy {
      var r := SpyReturn(prices, startIdx, endIdx);
      st := if r.Some? then Some(Step(r.value, 0.0, None, map[])) else None;
    } else {
      HeldIsCovered(v, picks, regime);
      var h := Held(v, picks, regime);
      if h.symbols == [] {
        st := None;
      } else {
        var step := PickMonth(lib, prices, h, RobustTarget(prm, v), prev, startIdx, endIdx, startIdx - 1, prm.cost);
        st := Some(step);
      }
    }
  }

  // ---------------------------------------------------------------------------------
  // Per-variant results

  /** A variant's entry of the results dictionary: SPY keeps only returns. */
  datatype RobustTrack = RobustTrack(monthlyReturns: seq<real>, scaleFactors: seq<real>, turnovers: seq<real>)

  const NoResults: RobustTrack := RobustTrack([], [], [])

  /**
   * Appends what the month brought, if anything: SPY only its return, every other
   * variant its return, its scale (1.0 when it does not scale) and its turnover.
   */
  function AfterMonth(t: RobustTrack, v: Variant, st: Option<Step>): RobustTrack
  {
    if st.None? then t
    else if v == Spy then t.(monthlyReturns := t.monthlyReturns + [st.value.ret])
    else
      RobustTrack(t.monthlyReturns + [st.value.ret],
                  t.scaleFactors + [if st.value.scale.Some? then st.value.scale.value else 1.0],
                  t.turnovers + [st.value.turnover])
  }

  /** The weights a variant holds after the month: the new ones if it traded, the old ones otherwise. */
  function HeldAfter(prev: map<string, real>, st: Option<Step>): map<string, real>
  {
    if st.Some? then st.value.weights else prev
  }

  /**
   * The shape of one variant's results: SPY records returns only; the others record a
   * scale and a turnover with every return; unscaled variants record a scale of 1.0 and
   * VolScale variants a factor in [0.5, 1.5].
   */
  ghost predicate RobustTrackOk(t: RobustTrack, v: Variant)
  {
    && (v == Spy ==> t.scaleFactors == [] && t.turnovers == [])
    && (v != Spy ==> |t.scaleFactors| == |t.monthlyReturns| && |t.turnovers| == |t.monthlyReturns|)
    && (!IsVolScale(v) ==> forall k :: 0 <= k < |t.scaleFactors| ==> t.scaleFactors[k] == 1.0)
    && (IsVolScale(v) ==> forall k :: 0 <= k < |t.scaleFactors| ==> VolScaleMin <= t.scaleFactors[k] <= VolScaleMax)
  }

  /**
   * A VolScale variant's results against its unscaled twin's: the same number of months,
   * the same turnovers, and each scaled return equal to the twin's return times the factor.
   */
  ghost predicate TwinsAgree(scaled: RobustTrack, plain: RobustTrack)
  {
    && |scaled.monthlyReturns| == |plain.monthlyReturns|
    && scaled.turnovers == plain.turnovers
    && forall k :: 0 <= k < |scaled.monthlyReturns| && k < |scaled.scaleFactors| ==>
         scaled.monthlyReturns[k] == ScaledReturn(plain.monthlyReturns[k], scaled.scaleFactors[k])
  }

  /** The state the month loop keeps. */
  ghost predicate RobustOk(tracks: map<Variant, RobustTrack>, prev: map<Variant, map<string, real>>)
  {
    && (forall v :: v in tracks && (v in prev <==> v != Spy))
    && (forall v :: RobustTrackOk(tracks[v], v))
    && (forall v :: IsVolScale(v) ==> TwinsAgree(tracks[v], tracks[Unscaled(v)]) && prev[v] == prev[Unscaled(v)])
  }

  lemma AfterMonthKeepsTrackOk(t: RobustTrack, v: Variant, st: Option<Step>)
    requires RobustTrackOk(t, v)
    requires st.Some? && v != Spy ==> (st.value.scale.Some? <==> IsVolScale(v))
    requires st.Some? && st.value.scale.Some? ==> VolScaleMin <= st.value.scale.value <= VolScaleMax
    ensures RobustTrackOk(AfterMonth(t, v, st), v)
  {
  }

  lemma AfterMonthKeepsTwins(v: Variant, scaled: RobustTrack, plain: RobustTrack, a: Option<Step>, b: Option<Step>)
    requires IsVolScale(v)
    requires TwinsAgree(scaled, plain) && |scaled.scaleFactors| == |scaled.monthlyReturns|
    requires a.Some? <==> b.Some?
    requires a.Some? ==> a.value.turnover == b.value.turnover && a.value.scale.Some?
                         && a.value.ret == ScaledReturn(b.value.ret, a.value.scale.value)
    ensures TwinsAgree(AfterMonth(scaled, v, a), AfterMonth(plain, Unscaled(v), b))
  {
  }

  /** Every variant's outcome for the month, each from that variant's own previous weights. */
  method RobustMonthSteps(lib: Lib, prices: Prices, prm: Params, prev: map<Variant, map<string, real>>,
                          picks: Picks, regime: Regime, startIdx: int, endIdx: int)
    returns (steps: map<Variant, Option<Step>>)
    requires AllCovered(picks)
    ensures forall v :: v in steps
    ensures forall v :: steps[v] == RobustStep(lib, prices, prm, v, picks, regime, PrevOf(prev, v), startIdx, endIdx)
  {
    AllVariantsListed();
    steps := map[];
    for i := 0 to |AllVariants|
      invariant forall k :: 0 <= k < i ==> AllVariants[k] in steps
      invariant forall v :: v in steps ==>
        steps[v] == RobustStep(lib, prices, prm, v, picks, regime, PrevOf(prev, v), startIdx, endIdx)
    {
      var v := AllVariants[i];
      var st := RobustVariantStep(lib, prices, prm, v, picks, regime, PrevOf(prev, v), startIdx, endIdx);
      steps := steps[v := st];
    }
    ListedKeysCoverAll(steps);
  }

  /** Appends each variant's outcome to its results, in the order of the results dictionary. */
  method AppendAll(tracks: map<Variant, RobustTrack>, steps: map<Variant, Option<Step>>)
    returns (recorded: map<Variant, RobustTrack>)
    requires forall v :: v in tracks && v in steps
    ensures forall v :: v in recorded && recorded[v] == AfterMonth(tracks[v], v, steps[v])
  {
    recorded := UpdateVariants(tracks, v => true, v => AfterMonth(tracks[v], v, steps[v]));
  }

  /** `prev_weights[key] = weights` for every variant that traded; the others keep theirs. */
  method CarryTraded(prev: map<Variant, map<string, real>>, steps: map<Variant, Option<Step>>)
    returns (held: map<Variant, map<string, real>>)
    requires forall v :: v in steps && (v in prev <==> v != Spy)
    ensures forall v :: (v in held <==> v != Spy) && (v != Spy ==> held[v] == HeldAfter(prev[v], steps[v]))
  {
    var touched := v => v != Spy;
    var after := v => if v in prev then HeldAfter(prev[v], steps[v]) else map[];
    held := UpdateVariants(prev, touched, after);
    forall v | v != Spy
      ensures held[v] == HeldAfter(prev[v], steps[v])
    {
      assert touched(v) && after(v) == HeldAfter(prev[v], steps[v]);
    }
  }

  /** Appending every variant's outcome and carrying the traded weights keeps the loop's state. */
  lemma StepsKeepRobustOk(lib: Lib, prices: Prices, prm: Params, picks: Picks, regime: Regime, startIdx: int, endIdx: int,
                          tracks: map<Variant, RobustTrack>, prev: map<Variant, map<string, real>>,
                          steps: map<Variant, Option<Step>>,
                          recorded: map<Variant, RobustTrack>, held: map<Variant, map<string, real>>)
    requires RobustOk(tracks, prev) && AllCovered(picks)
    requires forall v :: v in steps && steps[v] == RobustStep(lib, prices, prm, v, picks, regime, PrevOf(prev, v), startIdx, endIdx)
    requires forall v :: v in recorded && recorded[v] == AfterMonth(tracks[v], v, steps[v])
    requires forall v :: (v in held <==> v != Spy) && (v != Spy ==> held[v] == HeldAfter(prev[v], steps[v]))
    ensures RobustOk(recorded, held)
  {
    forall v
      ensures RobustTrackOk(recorded[v], v)
    {
      AfterMonthKeepsTrackOk(tracks[v], v, steps[v]);
    }
    forall v | IsVolScale(v)
      ensures TwinsAgree(recorded[v], recorded[Unscaled(v)]) && held[v] == held[Unscaled(v)]
    {
      TwinSteps(lib, prices, prm, v, picks, regime, PrevOf(prev, v), startIdx, endIdx);
      AfterMonthKeepsTwins(v, tracks[v], tracks[Unscaled(v)], steps[v], steps[Unscaled(v)]);
    }
  }

  /** One traded month for every variant: compute the outcomes, append them and carry the weights. */
  method RobustTradeMonth(lib: Lib, prices: Prices, prm: Params, tracks: map<Variant, RobustTrack>,
                          prev: map<Variant, map<string, real>>, picks: Picks, regime: Regime, startIdx: int, endIdx: int)
    returns (recorded: map<Variant, RobustTrack>, held: map<Variant, map<string, real>>)
    requires RobustOk(tracks, prev) && AllCovered(picks)
    ensures RobustOk(recorded, held)
    ensures forall v ::
              recorded[v] == AfterMonth(tracks[v], v,
                RobustStep(lib, prices, prm, v, picks, regime, PrevOf(prev, v), startIdx, endIdx))
    ensures forall v :: v != Spy ==>
              held[v] == HeldAfter(prev[v],
                RobustStep(lib, prices, prm, v, picks, regime, PrevOf(prev, v), startIdx, endIdx))
  {
    var steps := RobustMonthSteps(lib, prices, prm, prev, picks, regime, startIdx, endIdx);
    recorded := AppendAll(tracks, steps);
    held := CarryTraded(prev, steps);
    StepsKeepRobustOk(lib, prices, prm, picks, regime, startIdx, endIdx, tracks, prev, steps, recorded, held);
  }

  class RobustBacktest {
    var tracks: map<Variant, RobustTrack>
    var prevWeights: map<Variant, map<string, real>>

    /**
     * Every variant has results and every variant but SPY previous weights; each variant's
     * results have their shape, and each VolScale variant agrees with its unscaled twin.
     */
    ghost predicate Valid()
      reads this
    {
      RobustOk(tracks, prevWeights)
    }

    constructor ()
      ensures Valid()
      ensures forall v :: tracks[v] == NoResults
      ensures forall v :: v != Spy ==> prevWeights[v] == map[]
    {
      AllVariantsListed();
      tracks := map v | v in AllVariants :: NoResults;
      prevWeights := map v | v in AllVariants && v != Spy :: map[];
    }

    /** The month's blocks once the selections are made: each variant trades or skips on its own. */
    method TradeOn(lib: Lib, prices: Prices, prm: Params, picks: Picks, regime: Regime, startIdx: int, endIdx: int)
      requires Valid() && AllCovered(picks)
      modifies this
      ensures Valid()
      ensures forall v ::
                tracks[v] == AfterMonth(old(tracks)[v], v,
                  RobustStep(lib, prices, prm, v, picks, regime, PrevOf(old(prevWeights), v), startIdx, endIdx))
      ensures forall v :: v != Spy ==>
                prevWeights[v] == HeldAfter(old(prevWeights)[v],
                  RobustStep(lib, prices, prm, v, picks, regime, PrevOf(old(prevWeights), v), startIdx, endIdx))
    {
      tracks, prevWeights := RobustTradeMonth(lib, prices, prm, tracks, prevWeights, picks, regime, startIdx, endIdx);
    }

    /**
     * One iteration of the month loop from month start `start` to the day before `next`:
     * shift the start by the offset, skip when the selection day lacks momentum history,
     * otherwise select and let every variant trade or skip.
     */
    method StepMonth(lib: Lib, prices: Prices, prm: Params, u: Universes, start: int, next: int)
      requires Valid()
      modifies this
      ensures Valid()
      ensures RebalanceStart(start, next, prm.offset) - 1 < prm.momentumPeriod ==>
        tracks == old(tracks) && prevWeights == old(prevWeights)
    {
      var startIdx := RebalanceStart(start, next, prm.offset);
      var endIdx := next - 1;
      var selectionIdx := startIdx - 1;
      if selectionIdx < prm.momentumPeriod {
        return;
      }
      var regime := RegimeAt(prices, selectionIdx);
      var picks := SelectAll(lib, prices, u, selectionIdx, prm.topN, prm.momentumPeriod);
      TradeOn(lib, prices, prm, picks, regime, startIdx, endIdx);
    }

    /** The month loop over consecutive month starts. */
    method Run(lib: Lib, prices: Prices, prm: Params, u: Universes, starts: seq<int>)
      requires Valid()
      modifies this
      ensures Valid()
    {
      if |starts| <= 1 {
        return;
      }
      for i := 0 to |starts| - 1
        invariant Valid()
      {
        StepMonth(lib, prices, prm, u, starts[i], starts[i + 1]);
      }
    }
  }
}
