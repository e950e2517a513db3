/** Season-to-season reversion of a team's rating
    (nfelo/Utilities/offseason_regression.py). */
module OffseasonRegression {
  import opened Wrappers
  import opened Numerics

  /** The league's mean rating, the centre every reversion pulls toward. */
  const MeanElo: real := 1505.0

  /** The blend weights actually used. */
  datatype Weights = Weights(reverted: real, dvoa: real, wt: real)

  /** Configured DVOA and win-total weights, scaled down to sum to one when
      they exceed it; the reverted weight takes the remainder. */
  function NormalizeWeights(dvoaWeight: real, wtWeight: real): (w: Weights)
    ensures w.reverted + w.dvoa + w.wt == 1.0
    ensures dvoaWeight + wtWeight <= 1.0 ==> w.dvoa == dvoaWeight && w.wt == wtWeight
    ensures dvoaWeight + wtWeight > 1.0 ==> w.reverted == 0.0
    ensures dvoaWeight >= 0.0 && wtWeight >= 0.0 ==>
      0.0 <= w.reverted <= 1.0 && 0.0 <= w.dvoa <= 1.0 && 0.0 <= w.wt <= 1.0
  {
    var total := dvoaWeight + wtWeight;
    var dw := if total > 1.0 then dvoaWeight / total else dvoaWeight;
    var ww := if total > 1.0 then wtWeight / total else wtWeight;
    assert total > 1.0 ==> dw + ww == 1.0 by {
      if total > 1.0 { SharesSumToOne(dvoaWeight, wtWeight); }
    }
    assert total > 1.0 && dvoaWeight >= 0.0 && wtWeight >= 0.0 ==> dw <= 1.0 && ww <= 1.0 by {
      if total > 1.0 && dvoaWeight >= 0.0 && wtWeight >= 0.0 {
        ShareWithinUnit(dvoaWeight, total);
        ShareWithinUnit(wtWeight, total);
      }
    }
    Weights(1.0 - (dw + ww), dw, ww)
  }

  /** Weights summing past one are scaled by the same factor: each is its
      configured value divided by their total. */
  lemma NormalizeWeightsScales(dvoaWeight: real, wtWeight: real)
    requires dvoaWeight + wtWeight > 1.0
    ensures var w := NormalizeWeights(dvoaWeight, wtWeight);
            w.dvoa * (dvoaWeight + wtWeight) == dvoaWeight && w.wt * (dvoaWeight + wtWeight) == wtWeight
  {
    var total := dvoaWeight + wtWeight;
    var x := dvoaWeight / total;
    var y := wtWeight / total;
    assert x * total == dvoaWeight && y * total == wtWeight;
  }

  /** The previous rating re-centred on the league median, then pulled toward
      1505 by `reversion`. */
  function MeanReverted(leagueElo: real, previousElo: real, reversion: real): real {
    reversion * MeanElo + (1.0 - reversion) * (MeanElo + (previousElo - leagueElo))
  }

  /** A prior rating from a projection: `1505 + scale * projection`, or the
      mean-reverted rating when the projection is missing. */
  function PriorElo(projection: Option<real>, scale: real, fallback: real): (r: real)
    ensures projection.None? ==> r == fallback
    ensures projection.Some? ==> r == MeanElo + scale * projection.value
  {
    match projection
    case None => fallback
    case Some(p) => MeanElo + scale * p
  }

  /** offseason_regression: the weighted average of the mean-reverted,
      DVOA-implied and win-total-implied ratings. */
  function Regress(leagueElo: real, previousElo: real, projDvoa: Option<real>, projWtRating: Option<real>,
                   reversion: real, dvoaWeight: real, wtWeight: real): (r: real)
    ensures dvoaWeight == 0.0 && wtWeight == 0.0 ==> r == MeanReverted(leagueElo, previousElo, reversion)
  {
    var reverted := MeanReverted(leagueElo, previousElo, reversion);
    var dvoaElo := PriorElo(projDvoa, 484.0, reverted);
    var wtElo := PriorElo(projWtRating, 24.8, reverted);
    Blend(NormalizeWeights(dvoaWeight, wtWeight), reverted, dvoaElo, wtElo)
  }

  /** The weighted average of the three component ratings. */
  function Blend(w: Weights, reverted: real, dvoaElo: real, wtElo: real): real {
    w.reverted * reverted + w.dvoa * dvoaElo + w.wt * wtElo
  }

  /** With both projections missing the result is the mean-reverted rating,
      whatever the weights. */
  lemma BothMissingIsMeanReverted(leagueElo: real, previousElo: real, reversion: real,
                                  dvoaWeight: real, wtWeight: real)
    ensures Regress(leagueElo, previousElo, None, None, reversion, dvoaWeight, wtWeight)
         == MeanReverted(leagueElo, previousElo, reversion)
  {
    var w := NormalizeWeights(dvoaWeight, wtWeight);
    var x := MeanReverted(leagueElo, previousElo, reversion);
    assert w.reverted * x + w.dvoa * x + w.wt * x == (w.reverted + w.dvoa + w.wt) * x;
  }

  /** A 1700 team in a 1505 league with reversion 0.3 and no projections
      starts at 1641.5. */
  lemma ExampleBothMissing(dvoaWeight: real, wtWeight: real)
    ensures Regress(1505.0, 1700.0, None, None, 0.3, dvoaWeight, wtWeight) == 1641.5
  {
    BothMissingIsMeanReverted(1505.0, 1700.0, 0.3, dvoaWeight, wtWeight);
  }

  /** With nonnegative configured weights the result is a convex combination
      of the three component ratings. */
  lemma RegressBetween(leagueElo: real, previousElo: real, projDvoa: Option<real>, projWtRating: Option<real>,
                       reversion: real, dvoaWeight: real, wtWeight: real)
    requires dvoaWeight >= 0.0 && wtWeight >= 0.0
    ensures var reverted := MeanReverted(leagueElo, previousElo, reversion);
            var dvoaElo := PriorElo(projDvoa, 484.0, reverted);
            var wtElo := PriorElo(projWtRating, 24.8, reverted);
            var r := Regress(leagueElo, previousElo, projDvoa, projWtRating, reversion, dvoaWeight, wtWeight);
            Min(reverted, Min(dvoaElo, wtElo)) <= r <= Max(reverted, Max(dvoaElo, wtElo))
  {
    var reverted := MeanReverted(leagueElo, previousElo, reversion);
    var dvoaElo := PriorElo(projDvoa, 484.0, reverted);
    var wtElo := PriorElo(projWtRating, 24.8, reverted);
    var w := NormalizeWeights(dvoaWeight, wtWeight);
    var lo, hi := Min(reverted, Min(dvoaElo, wtElo)), Max(reverted, Max(dvoaElo, wtElo));
    BlendBetween(w, reverted, dvoaElo, wtElo, lo, hi);
  }

  /** Nonnegative weights summing to one keep a blend between bounds of its
      parts. */
  lemma BlendBetween(w: Weights, x: real, y: real, z: real, lo: real, hi: real)
    requires w.reverted >= 0.0 && w.dvoa >= 0.0 && w.wt >= 0.0 && w.reverted + w.dvoa + w.wt == 1.0
    requires lo <= x <= hi && lo <= y <= hi && lo <= z <= hi
    ensures lo <= Blend(w, x, y, z) <= hi
  {
    Convex3(w.reverted, w.dvoa, w.wt, x, y, z, lo, hi);
    assert Blend(w, x, y, z) == w.reverted * x + w.dvoa * y + w.wt * z;
  }

  lemma Convex3(a: real, b: real, c: real, x: real, y: real, z: real, lo: real, hi: real)
    requires a >= 0.0 && b >= 0.0 && c >= 0.0 && a + b + c == 1.0
    requires lo <= x <= hi && lo <= y <= hi && lo <= z <= hi
    ensures lo <= a * x + b * y + c * z <= hi
  {
    Convex3Above(a, b, c, x, y, z, lo);
    Convex3Below(a, b, c, x, y, z, hi);
  }

  /** The weighted sum exceeds lo by the weighted excesses of x, y and z. */
  lemma Convex3Above(a: real, b: real, c: real, x: real, y: real, z: real, lo: real)
    requires a >= 0.0 && b >= 0.0 && c >= 0.0 && a + b + c == 1.0
    requires lo <= x && lo <= y && lo <= z
    ensures lo <= a * x + b * y + c * z
  {
    MulNonneg(a, x - lo);
    MulNonneg(b, y - lo);
    MulNonneg(c, z - lo);
    assert a * x + b * y + c * z - lo == a * (x - lo) + b * (y - lo) + c * (z - lo) by {
      assert c == 1.0 - a - b;
    }
  }

  /** The weighted sum falls short of hi by the weighted shortfalls of x, y and z. */
  lemma Convex3Below(a: real, b: real, c: real, x: real, y: real, z: real, hi: real)
    requires a >= 0.0 && b >= 0.0 && c >= 0.0 && a + b + c == 1.0
    requires x <= hi && y <= hi && z <= hi
    ensures a * x + b * y + c * z <= hi
  {
    MulNonneg(a, hi - x);
    MulNonneg(b, hi - y);
    MulNonneg(c, hi - z);
    assert hi - (a * x + b * y + c * z) == a * (hi - x) + b * (hi - y) + c * (hi - z) by {
      assert c == 1.0 - a - b;
    }
  }

  /** A team that matched the league median with zero projections returns
      to exactly 1505. */
  lemma AverageTeamReturnsToMean(elo: real, reversion: real, dvoaWeight: real, wtWeight: real)
    ensures Regress(elo, elo, Some(0.0), Some(0.0), reversion, dvoaWeight, wtWeight) == MeanElo
  {
    var w := NormalizeWeights(dvoaWeight, wtWeight);
    assert MeanReverted(elo, elo, reversion) == MeanElo;
    assert w.reverted * MeanElo + w.dvoa * MeanElo + w.wt * MeanElo == (w.reverted + w.dvoa + w.wt) * MeanElo;
  }
}
