/** Kelly-based bet sizing (nfelo/Utilities/bet_size.py). */
module BetSize {
  import opened Wrappers
  import opened Numerics

  /** Decimal odds used when none are given: a -110 bet pays 1/1.1. */
  const DefaultOdds: real := 1.0 / 1.1

  /** kelly_bet_size for one probability: p - (1 - p) / odds.  Dividing by
      zero odds raises. */
  function KellyBetSize(winProb: real, odds: Option<real>): (r: Result<real, Error>)
    ensures r.Err? <==> odds.Some? && odds.value == 0.0
    ensures odds.None? ==> r.Ok? && r.value == 2.1 * winProb - 1.1
  {
    var o := odds.GetOr(DefaultOdds);
    if o == 0.0 then Err(ZeroDivision) else Ok(winProb - (1.0 - winProb) / o)
  }

  /** At the default -110 odds the Kelly fraction is zero exactly at the
      break-even probability 1.1 / 2.1, positive above it and negative below. */
  lemma KellyBreakEven(winProb: real)
    ensures KellyBetSize(winProb, None).value == 0.0 <==> winProb == 1.1 / 2.1
    ensures KellyBetSize(winProb, None).value > 0.0 <==> winProb > 1.1 / 2.1
    ensures KellyBetSize(1.0, None).value == 1.0
  {
  }

  /** The home cover share hcp / (hcp + hlp); NaN when both are zero. */
  function HomeShare(homeCoverProb: real, homeLossProb: real): (r: Option<real>)
    ensures r.None? <==> homeCoverProb + homeLossProb == 0.0
    ensures r.Some? ==> r.value * (homeCoverProb + homeLossProb) == homeCoverProb
  {
    if homeCoverProb + homeLossProb == 0.0 then None
    else Some(homeCoverProb / (homeCoverProb + homeLossProb))
  }

  /** The away share as written: (1 - hcp) / ((1 - hcp) + (1 - hlp)). */
  function AwayShare(homeCoverProb: real, homeLossProb: real): (r: Option<real>)
    ensures r.None? <==> homeCoverProb + homeLossProb == 2.0
    ensures r.Some? ==> r.value * (2.0 - homeCoverProb - homeLossProb) == 1.0 - homeCoverProb
  {
    var acp := 1.0 - homeCoverProb;
    var alp := 1.0 - homeLossProb;
    if acp + alp == 0.0 then None else Some(acp / (acp + alp))
  }

  /** With a push probability `push = 1 - hcp - hlp`, the away share counts
      the push on both sides: it is (hlp + push) / (hcp + hlp + 2 push), so a
      push pulls it toward one half, and it is not 1 minus the home share
      unless the push probability is zero. */
  lemma AwayShareCountsPushes(homeCoverProb: real, homeLossProb: real, push: real)
    requires homeCoverProb >= 0.0 && homeLossProb >= 0.0 && push >= 0.0
    requires homeCoverProb + homeLossProb + push == 1.0
    requires homeCoverProb + homeLossProb > 0.0
    ensures AwayShare(homeCoverProb, homeLossProb).Some?
    ensures AwayShare(homeCoverProb, homeLossProb).value
         == (homeLossProb + push) / (homeCoverProb + homeLossProb + 2.0 * push)
    ensures push == 0.0 ==>
      AwayShare(homeCoverProb, homeLossProb).value == 1.0 - HomeShare(homeCoverProb, homeLossProb).value
  {
    var h := HomeShare(homeCoverProb, homeLossProb).value;
    if push == 0.0 {
      assert h * (homeCoverProb + homeLossProb) == homeCoverProb;
      assert (1.0 - h) * (homeCoverProb + homeLossProb) == homeLossProb;
    }
  }

  /** numpy.maximum of the two shares, NaN when either is NaN. */
  function ChosenProbability(homeCoverProb: real, homeLossProb: real): (r: Option<real>)
    ensures r.Some? <==> HomeShare(homeCoverProb, homeLossProb).Some? && AwayShare(homeCoverProb, homeLossProb).Some?
    ensures r.Some? ==> r.value == Max(HomeShare(homeCoverProb, homeLossProb).value,
                                       AwayShare(homeCoverProb, homeLossProb).value)
  {
    var h := HomeShare(homeCoverProb, homeLossProb);
    var a := AwayShare(homeCoverProb, homeLossProb);
    if h.Some? && a.Some? then Some(if h.value >= a.value then h.value else a.value) else None
  }

  /** log(1 + 100 k) / log(101): NaN (or minus infinity) once 1 + 100 k is
      not positive. */
  function ScaledKelly(m: Math, kelly: real): (r: Option<real>)
    requires m.ln(101.0) != 0.0
    ensures r.Some? <==> 1.0 + kelly * 100.0 > 0.0
  {
    if 1.0 + kelly * 100.0 > 0.0 then Some(m.ln(1.0 + kelly * 100.0) / m.ln(101.0)) else None
  }

  /** No edge scales to 0 and a full Kelly scales to 1, given log(1) = 0. */
  lemma ScaledKellyEnds(m: Math)
    requires m.ln(101.0) != 0.0 && m.ln(1.0) == 0.0
    ensures ScaledKelly(m, 0.0) == Some(0.0)
    ensures ScaledKelly(m, 1.0) == Some(1.0)
  {
    var l := m.ln(101.0);
    assert 1.0 + 1.0 * 100.0 == 101.0;
    assert l / l == 1.0;
    assert 0.0 / l == 0.0;
  }

  /** numpy.round(bet / 50) * 50. */
  function RoundTo50(bet: real): (r: real)
    ensures IsWhole(r / 50.0)
    ensures bet - 25.0 <= r <= bet + 25.0
  {
    var k := RoundHalfEven(bet / 50.0);
    MultipleOf50(k);
    k as real * 50.0
  }

  lemma MultipleOf50(k: int)
    ensures IsWhole((k as real * 50.0) / 50.0)
  {
    var x := k as real * 50.0;
    assert x / 50.0 == k as real;
    assert (k as real).Floor == k;
  }

  /** The rounded bet before the minimum filter: the scaled Kelly of the
      chosen probability times the maximum bet, rounded to a multiple of 50;
      NaN once the Kelly fraction is not above -1/100. */
  function RoundedBet(m: Math, prob: real, totalRiskTarget: real, maxBetPct: real): (r: Option<real>)
    requires m.ln(101.0) != 0.0
    ensures r.Some? <==> 2.1 * prob - 1.1 > -0.01
    ensures r.Some? ==> IsWhole(r.value / 50.0)
  {
    var kelly := KellyBetSize(prob, None).value;
    var scaled := ScaledKelly(m, kelly);
    if scaled.None? then None
    else Some(RoundTo50(scaled.value * maxBetPct * totalRiskTarget))
  }

  /** bet_size for one game: `None` is numpy's NaN, either from a zero
      denominator, from the log of a nonpositive number, or from a rounded
      bet not above the minimum. */
  function BetSize(m: Math, homeCoverProb: real, homeLossProb: real,
                   totalRiskTarget: real, maxBetPct: real, minBetPct: real): (r: Option<real>)
    requires m.ln(101.0) != 0.0
    ensures r.Some? ==> IsWhole(r.value / 50.0) && r.value > minBetPct * totalRiskTarget
    ensures var prob := ChosenProbability(homeCoverProb, homeLossProb);
      r.Some? <==> prob.Some? && 2.1 * prob.value - 1.1 > -0.01
                   && RoundedBet(m, prob.value, totalRiskTarget, maxBetPct).value > minBetPct * totalRiskTarget
    ensures r.Some? ==> r == RoundedBet(m, ChosenProbability(homeCoverProb, homeLossProb).value, totalRiskTarget, maxBetPct)
  {
    var prob := ChosenProbability(homeCoverProb, homeLossProb);
    if prob.None? then None
    else
      var b := RoundedBet(m, prob.value, totalRiskTarget, maxBetPct);
      if b.Some? && b.value > minBetPct * totalRiskTarget then b else None
  }

  /** A bet whose probability is exactly break-even scales to a zero bet,
      which never clears a positive minimum. */
  lemma BreakEvenIsNoBet(m: Math, homeCoverProb: real, homeLossProb: real,
                         totalRiskTarget: real, maxBetPct: real, minBetPct: real)
    requires m.ln(101.0) != 0.0 && m.ln(1.0) == 0.0
    requires minBetPct * totalRiskTarget >= 25.0
    requires ChosenProbability(homeCoverProb, homeLossProb) == Some(1.1 / 2.1)
    ensures BetSize(m, homeCoverProb, homeLossProb, totalRiskTarget, maxBetPct, minBetPct).None?
  {
    KellyBreakEven(1.1 / 2.1);
    ScaledKellyEnds(m);
    assert RoundedBet(m, 1.1 / 2.1, totalRiskTarget, maxBetPct).value == RoundTo50(0.0 * maxBetPct * totalRiskTarget);
  }
}
