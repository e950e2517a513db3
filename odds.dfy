/** American-odds conversions (nfelo/Utilities/odds.py). */
module Odds {
  import opened Wrappers
  import opened Numerics
  import SpreadTranslation

  /** american_to_prob_int. */
  function AmericanToProbInt(num: int): (r: real)
    ensures num <= -100 ==> 0.5 <= r < 1.0
    ensures num >= 100 ==> 0.0 < r <= 0.5
  {
    if num < 100 then (-1 * num) as real / (100 - num) as real
    else 100.0 / (100 + num) as real
  }

  /** american_to_prob_vector: `numpy.where` over the series. */
  function AmericanToProbVector(series: seq<int>): (r: seq<real>)
    ensures |r| == |series|
  {
    seq(|series|, i requires 0 <= i < |series| =>
      if series[i] < 100 then (-series[i]) as real / (100 - series[i]) as real
      else 100.0 / (100 + series[i]) as real)
  }

  /** The scalar and vector forms agree element by element. */
  lemma AmericanToProbAgree(series: seq<int>, i: int)
    requires 0 <= i < |series|
    ensures AmericanToProbVector(series)[i] == AmericanToProbInt(series[i])
  {
  }

  /** Favourite and underdog prices of the same size are complements:
      -x and +x (x >= 100) imply probabilities x/(100+x) and 100/(100+x). */
  lemma MirroredOddsComplement(x: int)
    requires x >= 100
    ensures AmericanToProbInt(-x) + AmericanToProbInt(x) == 1.0
  {
    assert (-1 * -x) as real / (100 - -x) as real == x as real / (100 + x) as real;
    assert x as real / (100 + x) as real + 100.0 / (100 + x) as real == (x + 100) as real / (100 + x) as real;
  }

  datatype HoldAdjusted = HoldAdjusted(home: real, away: real, hold: real)

  /** american_to_hold_adj_prob: scale both implied probabilities by their
      sum; the hold is that sum minus one.  The division raises when the
      sum is zero. */
  function AmericanToHoldAdjProb(homeOdds: int, awayOdds: int): (r: Result<HoldAdjusted, Error>)
    ensures r.Err? <==> AmericanToProbInt(homeOdds) + AmericanToProbInt(awayOdds) == 0.0
    ensures r.Ok? ==> r.value.home + r.value.away == 1.0
    ensures r.Ok? ==> r.value.hold == AmericanToProbInt(homeOdds) + AmericanToProbInt(awayOdds) - 1.0
    ensures r.Ok? ==> r.value.home * (r.value.hold + 1.0) == AmericanToProbInt(homeOdds)
  {
    var home := AmericanToProbInt(homeOdds);
    var away := AmericanToProbInt(awayOdds);
    var combo := home + away;
    if combo == 0.0 then Err(ZeroDivision)
    else
      ShareOfSum(home, away);
      Ok(HoldAdjusted(home / combo, away / combo, combo - 1.0))
  }

  lemma ShareOfSum(x: real, y: real)
    requires x + y != 0.0
    ensures x / (x + y) + y / (x + y) == 1.0
    ensures x / (x + y) * (x + y) == x
  {
    assert x / (x + y) + y / (x + y) == (x + y) / (x + y);
  }

  /** american_to_price_int: the stake that wins 100; `100 / (odds / 100)`
      raises at zero odds. */
  function AmericanToPriceInt(odds: int): (r: Result<real, Error>)
    ensures odds < 0 ==> r == Ok((-odds) as real)
    ensures odds == 0 <==> r.Err?
    ensures odds > 0 ==> r.Ok? && r.value * odds as real == 10000.0
  {
    if odds < 0 then Ok(Abs(odds as real))
    else if odds == 0 then Err(ZeroDivision)
    else Ok(100.0 / (odds as real / 100.0))
  }

  /** american_to_price_vector: element-wise; numpy yields `inf` at zero odds,
      modelled as a missing value. */
  function AmericanToPriceVector(odds: seq<int>): (r: seq<Option<real>>)
    ensures |r| == |odds|
  {
    seq(|odds|, i requires 0 <= i < |odds| =>
      if odds[i] < 0 then Some(Abs(odds[i] as real))
      else if odds[i] == 0 then None
      else Some(100.0 / (odds[i] as real / 100.0)))
  }

  /** The vector form has a value exactly where the scalar form does not
      raise, and the same value. */
  lemma AmericanToPriceAgree(odds: seq<int>, i: int)
    requires 0 <= i < |odds|
    ensures AmericanToPriceVector(odds)[i].Some? <==> AmericanToPriceInt(odds[i]).Ok?
    ensures AmericanToPriceVector(odds)[i].Some? ==>
      AmericanToPriceVector(odds)[i].value == AmericanToPriceInt(odds[i]).value
  {
  }

  /** spread_to_prob_elo: 25 rating points per point of spread, z = 400. */
  function SpreadToProbElo(m: Math, spread: real): (r: real)
    ensures 0.0 < r < 1.0
  {
    var dif := spread * 25.0;
    var a := m.pow10(-dif / 400.0);
    assert a + 1.0 > 1.0;
    1.0 / (a + 1.0)
  }

  /** It is elo_to_prob at 25 points per point of spread and z = 400; so
      a pick'em is 50/50. */
  lemma SpreadToProbEloIsEloToProb(m: Math, spread: real)
    ensures SpreadTranslation.EloToProb(m, spread * 25.0, 400.0).Ok?
    ensures SpreadToProbElo(m, spread) == SpreadTranslation.EloToProb(m, spread * 25.0, 400.0).value
    ensures m.pow10(0.0) == 1.0 ==> SpreadToProbElo(m, 0.0) == 0.5
  {
    assert -(0.0 * 25.0) / 400.0 == 0.0;
  }

  /** prob_to_elo in odds.py: `log10(1 / p - 1) * -z`, with no check on z;
      `1 / p` raises at p == 0. */
  function ProbToElo(m: Math, prob: real, z: real): (r: Result<real, Error>)
    ensures r.Err? <==> prob == 0.0
  {
    if prob == 0.0 then Err(ZeroDivision) else Ok(m.log10(1.0 / prob - 1.0) * -z)
  }

  /** It agrees with spread_translation's prob_to_elo wherever that one
      accepts z, and maps a 50/50 probability to an even matchup. */
  lemma ProbToEloAgrees(m: Math, prob: real, z: real)
    requires z > 0.0 && prob != 0.0
    ensures ProbToElo(m, prob, z).Ok? && SpreadTranslation.ProbToElo(m, prob, z).Ok?
    ensures ProbToElo(m, prob, z).value == SpreadTranslation.ProbToElo(m, prob, z).value
    ensures prob == 0.5 && m.log10(1.0) == 0.0 ==> ProbToElo(m, prob, z).value == 0.0
  {
    if prob == 0.5 {
      assert 1.0 / prob - 1.0 == 1.0;
    }
  }
}
