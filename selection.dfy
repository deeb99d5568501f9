/**
 * Top-N momentum selection with inverse-volatility weights (`select_attack_stocks` and
 * `select_defense_etfs`, which share one body).  The universe members with a momentum
 * score are ranked by that score, highest first (earlier universe members first among
 * equal scores), the first topN are kept, each is weighted by 1 / volatility, every
 * share is capped once at 40%, and the capped shares are renormalised to sum to one.
 */
module Selection {
  import opened Numerics
  import opened Sorting
  import opened Signals

  const WeightCap: real := 0.40

  /** A universe member together with its defined momentum score. */
  datatype Scored = Scored(symbol: string, momentum: real)

  function ScoreOf(s: Scored): real
  {
    s.momentum
  }

  /** The universe members with a defined momentum, in universe order. */
  function Candidates(prices: Prices, universe: seq<string>, idx: int, period: nat): (c: seq<Scored>)
    ensures |c| <= |universe|
    ensures forall k :: 0 <= k < |c| ==>
      c[k].symbol in universe && Momentum(prices, c[k].symbol, idx, period) == Some(c[k].momentum)
    decreases |universe|
  {
    if |universe| == 0 then []
    else
      var u := universe[|universe| - 1];
      var m := Momentum(prices, u, idx, period);
      Candidates(prices, universe[..|universe| - 1], idx, period)
      + (if m.Some? then [Scored(u, m.value)] else [])
  }

  function Symbols(xs: seq<Scored>): (s: seq<string>)
    ensures |s| == |xs|
    ensures forall k :: 0 <= k < |xs| ==> s[k] == xs[k].symbol
  {
    seq(|xs|, k requires 0 <= k < |xs| => xs[k].symbol)
  }

  /** The selected symbols: the topN best-ranked candidates, or none when there are too few. */
  function SelectedSymbols(prices: Prices, universe: seq<string>, idx: int, topN: nat, period: nat): seq<string>
  {
    var c := Candidates(prices, universe, idx, period);
    if |c| < topN then [] else Symbols(SortDesc(c, ScoreOf)[..topN])
  }

  function InvVol(lib: Lib, prices: Prices, symbol: string, idx: int): (iv: real)
    ensures iv > 0.0
  {
    var v := SymbolVolatility(lib, prices, symbol, idx);
    ReciprocalPositive(v);
    1.0 / v
  }

  lemma ReciprocalPositive(v: real)
    requires v > 0.0
    ensures 1.0 / v > 0.0
  {
  }

  /** [1 / vol(s) for s in selected]. */
  function InverseVols(lib: Lib, prices: Prices, selected: seq<string>, idx: int): (inv: seq<real>)
    ensures |inv| == |selected|
    ensures forall k :: 0 <= k < |inv| ==> inv[k] == InvVol(lib, prices, selected[k], idx) && inv[k] > 0.0
  {
    seq(|selected|, k requires 0 <= k < |selected| => InvVol(lib, prices, selected[k], idx))
  }

  /** Each inverse-volatility share, capped once at 40%. */
  function CappedShares(inv: seq<real>): (c: seq<real>)
    requires |inv| > 0 && forall k :: 0 <= k < |inv| ==> inv[k] > 0.0
    ensures Sum(inv) > 0.0
    ensures |c| == |inv|
    ensures forall k :: 0 <= k < |c| ==> c[k] == Min(inv[k] / Sum(inv), WeightCap) && c[k] > 0.0
  {
    SumPositive(inv);
    var total := Sum(inv);
    seq(|inv|, k requires 0 <= k < |inv| => QuotientPositive(inv[k], total); Min(inv[k] / total, WeightCap))
  }

  /** Each share divided by the total of the shares. */
  function CapThenRenormalise(inv: seq<real>): (w: seq<real>)
    requires |inv| > 0 && forall k :: 0 <= k < |inv| ==> inv[k] > 0.0
    ensures |w| == |inv|
  {
    var c := CappedShares(inv);
    SumPositive(c);
    seq(|c|, k requires 0 <= k < |c| => c[k] / Sum(c))
  }

  /**
   * A dict built from parallel lists, `{k: v for k, v in zip(keys, vals)}`: later pairs
   * overwrite earlier ones with the same key.
   */
  function ZipMap(keys: seq<string>, vals: seq<real>): map<string, real>
    requires |keys| == |vals|
    decreases |keys|
  {
    if |keys| == 0 then map[]
    else ZipMap(keys[..|keys| - 1], vals[..|vals| - 1])[keys[|keys| - 1] := vals[|vals| - 1]]
  }

  /** The weights dictionary of a selection: symbol to renormalised capped share. */
  function SelectionWeights(lib: Lib, prices: Prices, selected: seq<string>, idx: int): map<string, real>
  {
    if |selected| == 0 then map[]
    else ZipMap(selected, CapThenRenormalise(InverseVols(lib, prices, selected, idx)))
  }

  /** One more symbol adds its inverse volatility at the end. */
  lemma InverseVolsAppend(lib: Lib, prices: Prices, selected: seq<string>, i: nat, idx: int)
    requires i < |selected|
    ensures InverseVols(lib, prices, selected[..i + 1], idx)
              == InverseVols(lib, prices, selected[..i], idx) + [InvVol(lib, prices, selected[i], idx)]
  {
    assert selected[..i + 1] == selected[..i] + [selected[i]];
  }

  /** [1 / vol(s) for s in selected], computed symbol by symbol. */
  method InverseVolatilities(lib: Lib, prices: Prices, selected: seq<string>, idx: int) returns (invVols: seq<real>)
    ensures invVols == InverseVols(lib, prices, selected, idx)
  {
    invVols := [];
    for i := 0 to |selected|
      invariant invVols == InverseVols(lib, prices, selected[..i], idx)
    {
      InverseVolsAppend(lib, prices, selected, i, idx);
      invVols := invVols + [InvVol(lib, prices, selected[i], idx)];
    }
    assert selected[..|selected|] == selected;
  }

  /** The universe members with a momentum score, collected member by member. */
  method ScoreUniverse(prices: Prices, universe: seq<string>, idx: int, period: nat) returns (scores: seq<Scored>)
    ensures scores == Candidates(prices, universe, idx, period)
  {
    scores := [];
    for i := 0 to |universe|
      invariant scores == Candidates(prices, universe[..i], idx, period)
    {
      assert universe[..i + 1][..i] == universe[..i];
      var m := Momentum(prices, universe[i], idx, period);
      if m.Some? {
        scores := scores + [Scored(universe[i], m.value)];
      }
    }
    assert universe[..|universe|] == universe;
  }

  /** The two dict comprehensions: capped shares keyed by symbol, then each divided by their total. */
  method WeightDict(selected: seq<string>, invVols: seq<real>) returns (weights: map<string, real>)
    requires |selected| == |invVols| > 0 && forall k :: 0 <= k < |invVols| ==> invVols[k] > 0.0
    ensures weights == ZipMap(selected, CapThenRenormalise(invVols))
  {
    var capped := CappedShares(invVols);
    SumPositive(capped);
    var totalWeight := Sum(capped);
    var w := CapThenRenormalise(invVols);
    weights := map[];
    for i := 0 to |selected|
      invariant weights == ZipMap(selected[..i], w[..i])
    {
      assert selected[..i + 1][..i] == selected[..i] && w[..i + 1][..i] == w[..i];
      weights := weights[selected[i] := capped[i] / totalWeight];
    }
    assert selected[..|selected|] == selected && w[..|w|] == w;
  }

  /**
   * The selection as the scripts perform it: score the universe member by member, sort,
   * keep the first topN, then weight.
   */
  method Select(lib: Lib, prices: Prices, universe: seq<string>, idx: int, topN: nat, period: nat)
    returns (selected: seq<string>, weights: map<string, real>)
    ensures selected == SelectedSymbols(prices, universe, idx, topN, period)
    ensures weights == SelectionWeights(lib, prices, selected, idx)
  {
    var scores := ScoreUniverse(prices, universe, idx, period);
    if |scores| < topN {
      return [], map[];
    }
    var ranked := SortDesc(scores, ScoreOf);
    SortDescFacts(scores, ScoreOf);
    selected := Symbols(ranked[..topN]);
    if |selected| == 0 {
      return selected, map[];
    }
    var invVols := InverseVolatilities(lib, prices, selected, idx);
    weights := WeightDict(selected, invVols);
  }

  // ---------------------------------------------------------------------------------
  // Properties of the selection

  /** Every universe member with a defined momentum is a candidate. */
  lemma {:induction false} CandidatesComplete(prices: Prices, universe: seq<string>, idx: int, period: nat, u: string)
    requires u in universe && Momentum(prices, u, idx, period).Some?
    ensures Scored(u, Momentum(prices, u, idx, period).value) in Candidates(prices, universe, idx, period)
    decreases |universe|
  {
    var last := universe[|universe| - 1];
    if u != last {
      assert universe == universe[..|universe| - 1] + [last];
      CandidatesComplete(prices, universe[..|universe| - 1], idx, period, u);
    }
  }

  /** Without repeats in the universe, no symbol is a candidate twice. */
  lemma {:induction false} CandidatesDistinct(prices: Prices, universe: seq<string>, idx: int, period: nat)
    requires Distinct(universe)
    ensures Distinct(Symbols(Candidates(prices, universe, idx, period)))
    decreases |universe|
  {
    if |universe| > 0 {
      var prefix := universe[..|universe| - 1];
      var u := universe[|universe| - 1];
      CandidatesDistinct(prices, prefix, idx, period);
      var c := Candidates(prices, prefix, idx, period);
      forall k | 0 <= k < |c|
        ensures c[k].symbol != u
      {
        assert c[k].symbol in prefix;
      }
    }
  }

  /** The selection is empty exactly when fewer than topN members have a momentum score (or topN is 0). */
  lemma SelectionEmptyIff(prices: Prices, universe: seq<string>, idx: int, topN: nat, period: nat)
    ensures SelectedSymbols(prices, universe, idx, topN, period) == [] <==>
      (|Candidates(prices, universe, idx, period)| < topN || topN == 0)
  {
    var c := Candidates(prices, universe, idx, period);
    if |c| >= topN {
      SortDescCorrect(c, ScoreOf);
      assert |multiset(SortDesc(c, ScoreOf))| == |multiset(c)|;
    }
  }

  /** The candidates ranked by momentum, highest first. */
  function Ranked(prices: Prices, universe: seq<string>, idx: int, period: nat): seq<Scored>
  {
    SortDesc(Candidates(prices, universe, idx, period), ScoreOf)
  }

  lemma SelectedAreRankedPrefix(prices: Prices, universe: seq<string>, idx: int, topN: nat, period: nat)
    requires SelectedSymbols(prices, universe, idx, topN, period) != []
    ensures |Ranked(prices, universe, idx, period)| == |Candidates(prices, universe, idx, period)| >= topN
    ensures SelectedSymbols(prices, universe, idx, topN, period) == Symbols(Ranked(prices, universe, idx, period)[..topN])
  {
    SortDescFacts(Candidates(prices, universe, idx, period), ScoreOf);
  }

  /** Each selected symbol is a universe member whose momentum is the ranked score. */
  lemma SelectionMembers(prices: Prices, universe: seq<string>, idx: int, topN: nat, period: nat)
    requires SelectedSymbols(prices, universe, idx, topN, period) != []
    ensures var sel := SelectedSymbols(prices, universe, idx, topN, period);
      var r := Ranked(prices, universe, idx, period);
      && |sel| == topN && |r| >= topN
      && forall k :: 0 <= k < |sel| ==>
           sel[k] in universe && Momentum(prices, sel[k], idx, period) == Some(r[k].momentum)
  {
    var c := Candidates(prices, universe, idx, period);
    SortDescFacts(c, ScoreOf);
    SelectedAreRankedPrefix(prices, universe, idx, topN, period);
  }

  /** A universe member left out never has a higher momentum than a selected one. */
  lemma LeftOutRanksLower(prices: Prices, universe: seq<string>, idx: int, topN: nat, period: nat, u: string, k: int)
    requires SelectedSymbols(prices, universe, idx, topN, period) != []
    requires u in universe && u !in SelectedSymbols(prices, universe, idx, topN, period)
    requires Momentum(prices, u, idx, period).Some? && 0 <= k < topN
    ensures |Ranked(prices, universe, idx, period)| >= topN
    ensures Momentum(prices, u, idx, period).value <= Ranked(prices, universe, idx, period)[k].momentum
  {
    var c := Candidates(prices, universe, idx, period);
    var r := Ranked(prices, universe, idx, period);
    SortDescFacts(c, ScoreOf);
    SelectedAreRankedPrefix(prices, universe, idx, topN, period);
    var su := Scored(u, Momentum(prices, u, idx, period).value);
    CandidatesComplete(prices, universe, idx, period, u);
    var p :| 0 <= p < |r| && r[p] == su;
    var sel := SelectedSymbols(prices, universe, idx, topN, period);
    assert forall q :: 0 <= q < topN ==> r[q].symbol == sel[q];
    assert p >= topN;
    assert ScoreOf(r[k]) >= ScoreOf(r[p]);
  }

  /**
   * A non-empty selection holds exactly topN universe members with a momentum score,
   * in non-increasing momentum order, and no member left out has a higher score than
   * any member selected.
   */
  lemma SelectionIsTopN(prices: Prices, universe: seq<string>, idx: int, topN: nat, period: nat)
    requires SelectedSymbols(prices, universe, idx, topN, period) != []
    ensures var sel := SelectedSymbols(prices, universe, idx, topN, period);
      && |sel| == topN
      && (forall k :: 0 <= k < |sel| ==> sel[k] in universe && Momentum(prices, sel[k], idx, period).Some?)
      && (forall i, j :: 0 <= i < j < |sel| ==>
            Momentum(prices, sel[i], idx, period).value >= Momentum(prices, sel[j], idx, period).value)
      && (forall u, k :: u in universe && u !in sel && Momentum(prices, u, idx, period).Some? && 0 <= k < |sel| ==>
            Momentum(prices, u, idx, period).value <= Momentum(prices, sel[k], idx, period).value)
  {
    var sel := SelectedSymbols(prices, universe, idx, topN, period);
    var r := Ranked(prices, universe, idx, period);
    SelectionMembers(prices, universe, idx, topN, period);
    SortDescFacts(Candidates(prices, universe, idx, period), ScoreOf);
    forall i, j | 0 <= i < j < |sel|
      ensures Momentum(prices, sel[i], idx, period).value >= Momentum(prices, sel[j], idx, period).value
    {
      assert ScoreOf(r[i]) >= ScoreOf(r[j]);
    }
    forall u, k | u in universe && u !in sel && Momentum(prices, u, idx, period).Some? && 0 <= k < |sel|
      ensures Momentum(prices, u, idx, period).value <= Momentum(prices, sel[k], idx, period).value
    {
      LeftOutRanksLower(prices, universe, idx, topN, period, u, k);
    }
  }

  /** Without repeats in the universe, the selection has no repeats. */
  lemma SelectionDistinct(prices: Prices, universe: seq<string>, idx: int, topN: nat, period: nat)
    requires Distinct(universe)
    ensures Distinct(SelectedSymbols(prices, universe, idx, topN, period))
  {
    var c := Candidates(prices, universe, idx, period);
    if |c| >= topN {
      var r := SortDesc(c, ScoreOf);
      SortDescCorrect(c, ScoreOf);
      CandidatesDistinct(prices, universe, idx, period);
      RearrangedSymbolsDistinct(c, r);
      assert |r| >= topN by {
        assert |multiset(r)| == |multiset(c)|;
      }
      assert Symbols(r[..topN]) == Symbols(r)[..topN];
    }
  }

  /** Rearranging scored entries whose symbols do not repeat leaves symbols that do not repeat. */
  lemma RearrangedSymbolsDistinct(c: seq<Scored>, r: seq<Scored>)
    requires Distinct(Symbols(c)) && multiset(r) == multiset(c)
    ensures Distinct(Symbols(r))
  {
    forall i, j | 0 <= i < j < |r|
      ensures r[i].symbol != r[j].symbol
    {
      assert r[i] in multiset(r) && r[j] in multiset(r);
      var a :| 0 <= a < |c| && c[a] == r[i];
      var b :| 0 <= b < |c| && c[b] == r[j];
      if r[i].symbol == r[j].symbol {
        assert a == b by {
          assert Symbols(c)[a] == Symbols(c)[b];
        }
        RepeatCounts(r, i, j);
        DistinctCounts(c, r[i]);
      }
    }
  }

  /** The keys of a zipped dict are exactly the listed keys. */
  lemma {:induction false} ZipMapKeys(keys: seq<string>, vals: seq<real>)
    requires |keys| == |vals|
    ensures forall s :: s in ZipMap(keys, vals) <==> s in keys
    decreases |keys|
  {
    if |keys| > 0 {
      var n := |keys| - 1;
      ZipMapKeys(keys[..n], vals[..n]);
      assert keys == keys[..n] + [keys[n]];
    }
  }

  /** Without repeated keys, each key maps to the value at its own position. */
  lemma {:induction false} ZipMapValues(keys: seq<string>, vals: seq<real>)
    requires |keys| == |vals| && Distinct(keys)
    ensures forall k :: 0 <= k < |keys| ==> keys[k] in ZipMap(keys, vals) && ZipMap(keys, vals)[keys[k]] == vals[k]
    decreases |keys|
  {
    if |keys| > 0 {
      var n := |keys| - 1;
      ZipMapValues(keys[..n], vals[..n]);
      forall k | 0 <= k < n
        ensures keys[k] in ZipMap(keys, vals) && ZipMap(keys, vals)[keys[k]] == vals[k]
      {
        assert keys[k] == keys[..n][k] && keys[k] != keys[n];
      }
    }
  }

  /** The weights dictionary is keyed exactly by the selected symbols, repeats or not. */
  lemma SelectionWeightsKeys(lib: Lib, prices: Prices, selected: seq<string>, idx: int)
    ensures forall s :: s in SelectionWeights(lib, prices, selected, idx) <==> s in selected
  {
    if |selected| > 0 {
      ZipMapKeys(selected, CapThenRenormalise(InverseVols(lib, prices, selected, idx)));
    }
  }

  /** Capped, renormalised shares are positive and sum to one. */
  lemma CapThenRenormaliseIsAllocation(inv: seq<real>)
    requires |inv| > 0 && forall k :: 0 <= k < |inv| ==> inv[k] > 0.0
    ensures var w := CapThenRenormalise(inv);
      (forall k :: 0 <= k < |w| ==> w[k] > 0.0) && Sum(w) == 1.0
  {
    var c := CappedShares(inv);
    SumPositive(c);
    var w := CapThenRenormalise(inv);
    forall k | 0 <= k < |w|
      ensures w[k] == c[k] / Sum(c) && w[k] > 0.0
    {
      QuotientPositive(c[k], Sum(c));
    }
    SumDivide(c, w, Sum(c));
    SelfQuotient(Sum(c));
  }

  lemma SelfQuotient(d: real)
    requires d != 0.0
    ensures d / d == 1.0
  {
  }

  /** A lower volatility (a larger inverse vol) never gets a smaller weight. */
  lemma CapThenRenormaliseMonotone(inv: seq<real>, i: int, j: int)
    requires |inv| > 0 && forall k :: 0 <= k < |inv| ==> inv[k] > 0.0
    requires 0 <= i < |inv| && 0 <= j < |inv| && inv[i] >= inv[j]
    ensures CapThenRenormalise(inv)[i] >= CapThenRenormalise(inv)[j]
  {
    var c := CappedShares(inv);
    SumPositive(c);
    DivideMonotone(inv[i], inv[j], Sum(inv));
    DivideMonotone(c[i], c[j], Sum(c));
  }

  lemma DivideMonotone(a: real, b: real, d: real)
    requires a >= b && d > 0.0
    ensures a / d >= b / d
  {
  }

  /** When no inverse-volatility share exceeds 40%, the cap changes nothing and the weights are the plain shares. */
  lemma UncappedIsProportional(inv: seq<real>)
    requires |inv| > 0 && forall k :: 0 <= k < |inv| ==> inv[k] > 0.0
    requires forall k :: 0 <= k < |inv| ==> inv[k] <= WeightCap * Sum(inv)
    ensures forall k :: 0 <= k < |inv| ==> CapThenRenormalise(inv)[k] == inv[k] / Sum(inv)
  {
    UncappedSharesSumToOne(inv);
    var c := CappedShares(inv);
    forall k | 0 <= k < |inv|
      ensures CapThenRenormalise(inv)[k] == inv[k] / Sum(inv)
    {
      assert CapThenRenormalise(inv)[k] == c[k] / Sum(c);
      assert c[k] / 1.0 == c[k];
    }
  }

  lemma UncappedSharesSumToOne(inv: seq<real>)
    requires |inv| > 0 && forall k :: 0 <= k < |inv| ==> inv[k] > 0.0
    requires forall k :: 0 <= k < |inv| ==> inv[k] <= WeightCap * Sum(inv)
    ensures forall k :: 0 <= k < |inv| ==> CappedShares(inv)[k] == inv[k] / Sum(inv)
    ensures Sum(CappedShares(inv)) == 1.0
  {
    var c := CappedShares(inv);
    var total := Sum(inv);
    forall k | 0 <= k < |inv|
      ensures c[k] == inv[k] / total
    {
      ShareBelowCap(inv[k], total);
    }
    SumPositive(inv);
    SumDivide(inv, c, total);
    SelfQuotient(total);
  }

  lemma ShareBelowCap(x: real, total: real)
    requires total > 0.0 && x <= WeightCap * total
    ensures x / total <= WeightCap
  {
  }

  /**
   * For a selection without repeats the weights are keyed exactly by the selected
   * symbols, are all positive, and sum to one over the selection.
   */
  lemma WeightsAreAllocation(lib: Lib, prices: Prices, selected: seq<string>, idx: int)
    requires |selected| > 0 && Distinct(selected)
    ensures var w := SelectionWeights(lib, prices, selected, idx);
      && (forall s :: s in w <==> s in selected)
      && (forall s :: s in w ==> w[s] > 0.0)
      && Sum(seq(|selected|, k requires 0 <= k < |selected| => w[selected[k]])) == 1.0
  {
    var inv := InverseVols(lib, prices, selected, idx);
    CapThenRenormaliseIsAllocation(inv);
    ZipMapAllocation(selected, CapThenRenormalise(inv));
  }

  /** A zipped dict over distinct keys and positive values summing to one is an allocation of those keys. */
  lemma ZipMapAllocation(keys: seq<string>, vals: seq<real>)
    requires |keys| == |vals| && Distinct(keys)
    requires (forall k :: 0 <= k < |vals| ==> vals[k] > 0.0) && Sum(vals) == 1.0
    ensures var w := ZipMap(keys, vals);
      && (forall s :: s in w <==> s in keys)
      && (forall s :: s in w ==> w[s] > 0.0)
      && Sum(seq(|keys|, k requires 0 <= k < |keys| => w[keys[k]])) == 1.0
  {
    var w := ZipMap(keys, vals);
    ZipMapKeys(keys, vals);
    ZipMapValues(keys, vals);
    forall s | s in w
      ensures w[s] > 0.0
    {
      var k :| 0 <= k < |keys| && keys[k] == s;
    }
    var ws := seq(|keys|, k requires 0 <= k < |keys| => w[keys[k]]);
    assert ws == vals;
  }

  /** When no inverse-volatility share exceeds 40%, each weight is the plain inverse-volatility share. */
  lemma UncappedWeightsAreInverseVolShares(lib: Lib, prices: Prices, selected: seq<string>, idx: int)
    requires |selected| > 0 && Distinct(selected)
    requires var inv := InverseVols(lib, prices, selected, idx);
      forall k :: 0 <= k < |inv| ==> inv[k] <= WeightCap * Sum(inv)
    ensures var inv := InverseVols(lib, prices, selected, idx);
      forall k :: 0 <= k < |selected| ==>
        selected[k] in SelectionWeights(lib, prices, selected, idx) &&
        SelectionWeights(lib, prices, selected, idx)[selected[k]] == inv[k] / Sum(inv)
  {
    var inv := InverseVols(lib, prices, selected, idx);
    ZipMapValues(selected, CapThenRenormalise(inv));
    UncappedIsProportional(inv);
  }

  /**
   * The cap is applied once: inverse vols 3:1:1 give shares 0.6/0.2/0.2, capped to
   * 0.4/0.2/0.2 and renormalised to 0.5/0.25/0.25, so a weight can end above 40%.
   */
  lemma SingleCapPassCanExceedCap()
    ensures CapThenRenormalise([3.0, 1.0, 1.0]) == [0.5, 0.25, 0.25]
  {
    var inv := [3.0, 1.0, 1.0];
    SumOfThree(3.0, 1.0, 1.0);
    var c := CappedShares(inv);
    assert c[0] == 0.4 && c[1] == 0.2 && c[2] == 0.2;
    assert c == [0.4, 0.2, 0.2];
    SumOfThree(0.4, 0.2, 0.2);
  }

  lemma SumOfThree(a: real, b: real, c: real)
    ensures Sum([a, b, c]) == a + b + c
  {
    assert [a][..0] == [];
    assert Sum([a]) == a;
    assert [a, b][..1] == [a];
    assert Sum([a, b]) == a + b;
    assert [a, b, c][..2] == [a, b];
  }
}
