/** Closing-line value of the opening spread (nfelo/Utilities/clv.py). */
module Clv {
  import opened CoverProbability

  /** Nominal EV per unit risked for win 1, push 0, loss -1.1. */
  function NominalEv(p: CoverProbs): real {
    p.cover * 1.0 + p.push * 0.0 + p.loss * -1.1
  }

  /** The other side of the same bet: loss and cover swap, push stays. */
  function Mirror(p: CoverProbs): CoverProbs {
    CoverProbs(p.cover, p.push, p.loss)
  }

  /** Mirroring is its own inverse and keeps the probability mass; the two
      sides' nominal EVs add up to the 0.1 vig lost on every decided bet. */
  lemma MirrorIsOtherSide(p: CoverProbs)
    ensures Mirror(Mirror(p)) == p
    ensures Mirror(p).loss + Mirror(p).push + Mirror(p).cover == p.loss + p.push + p.cover
    ensures NominalEv(p) + NominalEv(Mirror(p)) == -0.1 * (p.loss + p.cover)
  {
  }

  datatype ClvPair = ClvPair(home: real, away: real)

  /** calc_clv: the change in nominal EV, as a share of the 1.1 risked,
      between pricing the original line against itself and against the
      current line. */
  function CalcClv(dist: seq<DistRow>, originalHomeSpread: real, currentHomeSpread: real): ClvPair {
    var openHome := CalcCoverProbs(dist, originalHomeSpread, originalHomeSpread);
    var closeHome := CalcCoverProbs(dist, currentHomeSpread, originalHomeSpread);
    var openAway := Mirror(openHome);
    var closeAway := Mirror(closeHome);
    ClvPair((NominalEv(closeHome) - NominalEv(openHome)) / 1.1,
            (NominalEv(closeAway) - NominalEv(openAway)) / 1.1)
  }

  /** No line movement, no CLV on either side. */
  lemma NoMovementNoClv(dist: seq<DistRow>, spread: real)
    ensures CalcClv(dist, spread, spread) == ClvPair(0.0, 0.0)
  {
  }

  /** The away CLV in terms of the home probabilities:
      ((loss - 1.1 cover) - (loss_open - 1.1 cover_open)) / 1.1. */
  lemma AwayClvFromHome(dist: seq<DistRow>, originalHomeSpread: real, currentHomeSpread: real)
    ensures var openP := CalcCoverProbs(dist, originalHomeSpread, originalHomeSpread);
            var closeP := CalcCoverProbs(dist, currentHomeSpread, originalHomeSpread);
            CalcClv(dist, originalHomeSpread, currentHomeSpread).away
              == ((closeP.loss - 1.1 * closeP.cover) - (openP.loss - 1.1 * openP.cover)) / 1.1
  {
  }

  /** The two sides' CLVs add up to the vig on the change in decided mass:
      when the closing bucket has as much non-push mass as the opening one,
      one side gains exactly what the other loses. */
  lemma ClvSidesSum(dist: seq<DistRow>, originalHomeSpread: real, currentHomeSpread: real)
    ensures var openP := CalcCoverProbs(dist, originalHomeSpread, originalHomeSpread);
            var closeP := CalcCoverProbs(dist, currentHomeSpread, originalHomeSpread);
            var r := CalcClv(dist, originalHomeSpread, currentHomeSpread);
            r.home + r.away == -0.1 * ((closeP.loss + closeP.cover) - (openP.loss + openP.cover)) / 1.1
    ensures var openP := CalcCoverProbs(dist, originalHomeSpread, originalHomeSpread);
            var closeP := CalcCoverProbs(dist, currentHomeSpread, originalHomeSpread);
            closeP.loss + closeP.cover == openP.loss + openP.cover ==>
              CalcClv(dist, originalHomeSpread, currentHomeSpread).away
                == -CalcClv(dist, originalHomeSpread, currentHomeSpread).home
  {
    var openP := CalcCoverProbs(dist, originalHomeSpread, originalHomeSpread);
    var closeP := CalcCoverProbs(dist, currentHomeSpread, originalHomeSpread);
    MirrorIsOtherSide(openP);
    MirrorIsOtherSide(closeP);
  }

  /** When the current line moves probability mass from loss to cover for
      the home side (the bucket totals staying equal), home CLV is positive
      and away CLV negative. */
  lemma ClvSignsOppose(dist: seq<DistRow>, originalHomeSpread: real, currentHomeSpread: real)
    requires var openP := CalcCoverProbs(dist, originalHomeSpread, originalHomeSpread);
             var closeP := CalcCoverProbs(dist, currentHomeSpread, originalHomeSpread);
             closeP.cover > openP.cover && closeP.loss < openP.loss && closeP.push == openP.push
    ensures CalcClv(dist, originalHomeSpread, currentHomeSpread).home > 0.0
    ensures CalcClv(dist, originalHomeSpread, currentHomeSpread).away < 0.0
  {
  }
}
