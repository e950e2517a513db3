/** Per-game scoring: Brier (nfelo/Utilities/scoring_brier.py), ATS
    (nfelo/Utilities/scoring_spread.py), straight-up
    (nfelo/Utilities/scoring_su.py) and squared error
    (nfelo/Utilities/scoring_se.py).  A grade of `None` is numpy's NaN. */
module Scoring {
  import opened Wrappers
  import opened Numerics

  // -------------------------------------------------------------------
  // Brier

  /** brier_score_vector, one element: 538's modified Brier score. */
  function BrierScore(probability: real, margin: real): (r: real)
    ensures r <= 25.0
  {
    BrierTerms(probability);
    if margin > 0.0 then 25.0 - Sq(probability * 100.0 - 100.0) / 100.0
    else 25.0 - Sq((1.0 - probability) * 100.0 - 100.0) / 100.0
  }

  lemma BrierTerms(probability: real)
    ensures Sq(probability * 100.0 - 100.0) >= 0.0
    ensures Sq((1.0 - probability) * 100.0 - 100.0) >= 0.0
  {
    SqFacts(probability * 100.0 - 100.0);
    SqFacts((1.0 - probability) * 100.0 - 100.0);
  }

  /** The best score, 25, is reached exactly by a certain and correct
      forecast; a coin flip scores 0; probabilities in [0, 1] score within
      [-75, 25]. */
  lemma BrierRange(probability: real, margin: real)
    ensures BrierScore(probability, margin) == 25.0 <==>
      (margin > 0.0 && probability == 1.0) || (margin <= 0.0 && probability == 0.0)
    ensures BrierScore(0.5, margin) == 0.0
    ensures 0.0 <= probability <= 1.0 ==> -75.0 <= BrierScore(probability, margin) <= 25.0
  {
    var d := if margin > 0.0 then probability * 100.0 - 100.0 else (1.0 - probability) * 100.0 - 100.0;
    SqFacts(d);
    assert BrierScore(probability, margin) == 25.0 - Sq(d) / 100.0;
    assert d == 0.0 <==> (margin > 0.0 && probability == 1.0) || (margin <= 0.0 && probability == 0.0);
    assert Sq(-50.0) == 2500.0;
    if 0.0 <= probability <= 1.0 {
      assert Abs(d) <= 100.0;
      SqMonotone(d, 100.0);
      assert Sq(100.0) == 10000.0;
    }
  }

  /** What `brier_score_number` returns: a float, or, on the home-win
      branch, a one-element tuple (its `return` ends in a comma). */
  datatype PyNumber = Float(x: real) | Tuple1(item: real)

  /** brier_score_number as written. */
  function BrierScoreNumber(probability: real, margin: real): (r: PyNumber)
    ensures margin > 0.0 ==> r.Tuple1? && r.item == BrierScore(probability, margin)
    ensures margin <= 0.0 ==> r == Float(BrierScore(probability, margin))
  {
    if margin > 0.0 then Tuple1(25.0 - Sq(probability * 100.0 - 100.0) / 100.0)
    else Float(25.0 - Sq((1.0 - probability) * 100.0 - 100.0) / 100.0)
  }

  /** A home win returns a tuple, not a number: (0.7, 3) gives (16,). */
  lemma BrierScoreNumberTupleOnHomeWin()
    ensures BrierScoreNumber(0.7, 3.0) == Tuple1(16.0)
    ensures !BrierScoreNumber(0.7, 3.0).Float?
  {
  }

  /** brier_score_number as intended: a float on both branches, equal to the
      vector form, so the scalar and vector scores choose the same side. */
  function BrierScoreNumberIntended(probability: real, margin: real): (r: real)
    ensures r == BrierScore(probability, margin)
    ensures BrierScoreNumber(probability, margin).Float? ==> BrierScoreNumber(probability, margin).x == r
    ensures BrierScoreNumber(probability, margin).Tuple1? ==> BrierScoreNumber(probability, margin).item == r
  {
    if margin > 0.0 then 25.0 - Sq(probability * 100.0 - 100.0) / 100.0
    else 25.0 - Sq((1.0 - probability) * 100.0 - 100.0) / 100.0
  }

  // -------------------------------------------------------------------
  // against the spread

  /** The EV used when none is given: a bet is "break-even" when the lines
      are more than 1.5 points apart in its favour. */
  function DefaultEv(ev: Option<real>, spreadDelta: real): (r: real)
    ensures ev.Some? ==> r == ev.value
    ensures ev.None? && spreadDelta > 1.5 ==> r == 0.05
    ensures ev.None? && spreadDelta <= 1.5 ==> r == -0.05
  {
    if ev.None? then (if spreadDelta > 1.5 then 0.05 else -0.05) else ev.value
  }

  /** Is a 0/1/NaN grade. */
  predicate IsGrade(g: Option<real>) {
    g == None || g == Some(0.0) || g == Some(1.0)
  }

  /** grade_bet_vector, one element. */
  function GradeBet(modelLine: real, marketLine: real, result: real,
                    homeEv: Option<real>, awayEv: Option<real>, beOnly: bool): (r: Option<real>)
    ensures IsGrade(r)
    ensures modelLine == marketLine || marketLine + result == 0.0 ==> r.None?
  {
    var outcome :=
      if modelLine == marketLine || marketLine + result == 0.0 then None
      else if -modelLine > -marketLine then (if result + marketLine > 0.0 then Some(1.0) else Some(0.0))
      else if -modelLine < -marketLine then (if result + marketLine < 0.0 then Some(1.0) else Some(0.0))
      else None;
    if CountsAsPlay(modelLine, marketLine, homeEv, awayEv, beOnly) then outcome else None
  }

  /** `count_as_play`: with be_only, a row whose defaulted home or away EV is
      positive; without it every row, since the defaulted `home_ev` is never
      null. */
  predicate CountsAsPlay(modelLine: real, marketLine: real,
                         homeEv: Option<real>, awayEv: Option<real>, beOnly: bool)
  {
    !beOnly || DefaultEv(homeEv, modelLine - marketLine) > 0.0 || DefaultEv(awayEv, marketLine - modelLine) > 0.0
  }

  /** Which side is bet and when it wins: the home side when the model line
      is below the market's, winning iff it covers; the away side when above,
      winning iff home fails to cover; with be_only off every row counts. */
  lemma GradeBetSides(modelLine: real, marketLine: real, result: real,
                      homeEv: Option<real>, awayEv: Option<real>)
    requires modelLine != marketLine && marketLine + result != 0.0
    ensures modelLine < marketLine ==>
      GradeBet(modelLine, marketLine, result, homeEv, awayEv, false) == Some(if result + marketLine > 0.0 then 1.0 else 0.0)
    ensures modelLine > marketLine ==>
      GradeBet(modelLine, marketLine, result, homeEv, awayEv, false) == Some(if result + marketLine < 0.0 then 1.0 else 0.0)
  {
  }

  /** With be_only on, a row is graded only if one of the (defaulted) EVs is
      positive, and then exactly as without be_only: the side still follows
      the line order. */
  lemma GradeBetBreakEvenOnly(modelLine: real, marketLine: real, result: real,
                              homeEv: Option<real>, awayEv: Option<real>)
    ensures var home := DefaultEv(homeEv, modelLine - marketLine);
            var away := DefaultEv(awayEv, marketLine - modelLine);
            GradeBet(modelLine, marketLine, result, homeEv, awayEv, true)
              == if home > 0.0 || away > 0.0 then GradeBet(modelLine, marketLine, result, homeEv, awayEv, false)
                 else None
  {
  }

  /** With both EVs missing, be_only grades exactly the rows whose lines are
      more than 1.5 points apart. */
  lemma GradeBetFallbackThreshold(modelLine: real, marketLine: real, result: real)
    requires modelLine != marketLine && marketLine + result != 0.0
    ensures GradeBet(modelLine, marketLine, result, None, None, true).Some?
        <==> Abs(modelLine - marketLine) > 1.5
  {
  }

  // -------------------------------------------------------------------
  // straight up

  /** grade_su_vector, one element. */
  function GradeSu(modelLine: real, result: real): (r: Option<real>)
    ensures IsGrade(r)
    ensures r.None? <==> -modelLine == result
  {
    var expected := modelLine * -1.0;
    if expected == result then None
    else if Sign(expected) == Sign(result) then Some(1.0)
    else Some(0.0)
  }

  /** A correct pick is one whose direction matches the result; a tie with a
      nonzero expectation is wrong. */
  lemma GradeSuCorrectIff(modelLine: real, result: real)
    requires -modelLine != result
    ensures GradeSu(modelLine, result) == Some(1.0) <==>
      (-modelLine > 0.0 && result > 0.0) || (-modelLine < 0.0 && result < 0.0)
    ensures result == 0.0 ==> GradeSu(modelLine, result) == Some(0.0)
  {
  }

  // -------------------------------------------------------------------
  // squared error

  /** grade_se_vector, one element: the model line is a home spread, so a
      perfect line is the negated result. */
  function GradeSe(modelLine: real, result: real): (r: real)
    ensures r >= 0.0
  {
    SqFacts(modelLine + result);
    Sq(modelLine + result)
  }

  /** The squared error is nonnegative, zero exactly for the perfect line,
      and the same when both the line and the result are negated (the away
      view of the same game). */
  lemma GradeSeProperties(modelLine: real, result: real)
    ensures GradeSe(modelLine, result) >= 0.0
    ensures GradeSe(modelLine, result) == 0.0 <==> modelLine == -result
    ensures GradeSe(-modelLine, -result) == GradeSe(modelLine, result)
  {
    SqFacts(modelLine + result);
    assert -modelLine + -result == -(modelLine + result);
  }
}
