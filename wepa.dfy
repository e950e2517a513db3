/** Weighted EPA (models/calculate_wepa.py): the per-play offensive and
    defensive weights, their products with EPA and the ±10 clamp, the
    net-of-opponent game columns, the `game_id` format, and the
    description-based play classification. */
module Wepa {
  import opened Wrappers
  import opened Numerics
  import opened Text

  // -------------------------------------------------------------------
  // plays and season weights

  datatype PlayCall = Pass | Run | NoCall

  /** The play-by-play columns wepa_grade reads; the win probability and
      the EPA may be NaN. */
  datatype Play = Play(
    season: int, down: int, playCall: PlayCall, yardline100: real, wp: Option<real>,
    qbScramble: int, fumbleLost: int, epa: Option<real>, incompletePass: int,
    interception: int, airYards: Option<real>, sack: int, playType: string)

  /** `x < c` on a column that may be NaN: a NaN compares false. */
  predicate Below(x: Option<real>, c: real) {
    x.Some? && x.value < c
  }

  /** `x > c` on a column that may be NaN: a NaN compares false. */
  predicate Above(x: Option<real>, c: real) {
    x.Some? && x.value > c
  }

  /** `test_df['season'].map(weight_dict).str[k]`: the season's k-th
      coefficient, NaN when the season or the entry is missing. */
  function Coef(weights: map<int, seq<real>>, season: int, k: nat): (r: Option<real>)
    ensures r.Some? <==> season in weights && k < |weights[season]|
    ensures r.Some? ==> r.value == weights[season][k]
  {
    if season in weights && k < |weights[season]| then Some(weights[season][k]) else None
  }

  /** `numpy.where(cond, 1 + coef, 1)`: one when the condition fails,
      1 + the coefficient (NaN if it is missing) when it holds. */
  function Conditional(coef: Option<real>, cond: bool): (r: Option<real>)
    ensures !cond ==> r == Some(1.0)
    ensures cond ==> (r.Some? <==> coef.Some?)
    ensures cond && coef.Some? ==> r.value == 1.0 + coef.value
  {
    if !cond then Some(1.0)
    else if coef.Some? then Some(1.0 + coef.value)
    else None
  }

  /** The neutral second-down run condition as written: its win-probability
      clause `(wp < .90) | (wp > .10)` admits every known probability. */
  predicate NeutralSecondDownRun(p: Play) {
    p.down == 2 && p.playCall == Run && p.yardline100 > 20.0 && p.yardline100 < 85.0 &&
    (Below(p.wp, 0.9) || Above(p.wp, 0.1)) &&
    p.qbScramble != 1 && p.fumbleLost != 1 && Below(p.epa, 0.0)
  }

  /** The win-probability clause excludes no play whose win probability is
      known: only a NaN fails it. */
  lemma WinProbabilityClauseIsVacuous(p: Play)
    requires p.down == 2 && p.playCall == Run && 20.0 < p.yardline100 < 85.0
    requires p.qbScramble != 1 && p.fumbleLost != 1 && Below(p.epa, 0.0)
    ensures NeutralSecondDownRun(p) <==> p.wp.Some?
    ensures NeutralSecondDownRun(p.(wp := Some(0.99))) && NeutralSecondDownRun(p.(wp := Some(0.01)))
  {
  }

  /** The neutral second-down run condition as evidently intended: a game
      state between 10% and 90% win probability. */
  predicate NeutralSecondDownRunIntended(p: Play) {
    p.down == 2 && p.playCall == Run && p.yardline100 > 20.0 && p.yardline100 < 85.0 &&
    (Below(p.wp, 0.9) && Above(p.wp, 0.1)) &&
    p.qbScramble != 1 && p.fumbleLost != 1 && Below(p.epa, 0.0)
  }

  /** The intended condition agrees with the written one inside the neutral
      band and excludes every lopsided game state. */
  lemma IntendedNeutralExcludesLopsided(p: Play)
    ensures NeutralSecondDownRunIntended(p) ==> NeutralSecondDownRun(p)
    ensures p.wp.Some? && (p.wp.value >= 0.9 || p.wp.value <= 0.1) ==> !NeutralSecondDownRunIntended(p)
    ensures p.wp.Some? && 0.1 < p.wp.value < 0.9 ==> (NeutralSecondDownRunIntended(p) <==> NeutralSecondDownRun(p))
  {
  }

  /** `1 / (1 + exp(x))`. The exponential is a parameter of the model
      whose positivity is not part of its type, so a non-positive value
      is read as zero; with a positive exponential the result is strictly
      between zero and one. */
  function Logistic(m: Math, x: real): (r: real)
    ensures 0.0 < r <= 1.0
    ensures m.exp(x) > 0.0 ==> r < 1.0 && r * (1.0 + m.exp(x)) == 1.0
  {
    var e := Max(m.exp(x), 0.0);
    assert 1.0 + e >= 1.0;
    1.0 / (1.0 + e)
  }

  /** `2 * (1 / (1 + exp(-0.1 * air_yards + .75)) - 0.5)`: between -1 and 1. */
  function DepthCurve(m: Math, airYards: real): (r: real)
    ensures -1.0 < r <= 1.0
  {
    2.0 * (Logistic(m, -0.1 * airYards + 0.75) - 0.5)
  }

  /** The incompletion-depth weight: one plus the season coefficient times
      the depth curve on an incompletion that is not an interception, the
      NaN product replaced by zero. */
  function IncompletionWeight(m: Math, coef: Option<real>, p: Play): (r: Option<real>)
    ensures r.Some?
    ensures !(p.incompletePass == 1 && p.interception != 1) ==> r == Some(1.0)
    ensures coef.None? || p.airYards.None? ==> r == Some(1.0)
  {
    if p.incompletePass == 1 && p.interception != 1 && coef.Some? && p.airYards.Some? then
      Some(1.0 + coef.value * DepthCurve(m, p.airYards.value))
    else Some(1.0)
  }

  /** The logistic win-probability curve, reflected at one half. */
  function WinProbCurve(m: Math, wp: real): (r: real)
    ensures -0.5 < r <= 0.5
  {
    if wp <= 0.5 then Logistic(m, -10.0 * (2.0 * wp - 0.5)) - 0.5
    else Logistic(m, -10.0 * (2.0 * (1.0 - wp) - 0.5)) - 0.5
  }

  /** The scaled win-probability weight, applied to every play:
      1 - coef * curve(wp). A NaN win probability fails `wp <= .5` and
      reaches the second branch as `1 - NaN`, so the weight is NaN. */
  function ScaledWinProbWeight(m: Math, coef: Option<real>, wp: Option<real>): (r: Option<real>)
    ensures r.Some? <==> coef.Some? && wp.Some?
    ensures r.Some? ==> r.value == 1.0 - coef.value * WinProbCurve(m, wp.value)
    ensures r.Some? && coef.value == 0.0 ==> r.value == 1.0
  {
    if coef.Some? && wp.Some? then Some(1.0 + (-coef.value * WinProbCurve(m, wp.value))) else None
  }

  /** The win-probability weight treats the two sides of a game alike. */
  lemma WinProbCurveSymmetric(m: Math, wp: real)
    ensures WinProbCurve(m, wp) == WinProbCurve(m, 1.0 - wp)
  {
    assert 1.0 - (1.0 - wp) == wp;
  }

  /** The seven offensive weight columns, in the order wepa multiplies them:
      QB rush, neutral second-down run, incompletion depth, non-sack
      fumble, interception, goal line, scaled win probability. Each
      conditional column is 1 on a play that does not meet its condition. */
  function OffenseWeights(m: Math, weights: map<int, seq<real>>, p: Play): (r: seq<Option<real>>)
    ensures |r| == 7
    ensures !(p.qbScramble == 1 && p.fumbleLost != 1) ==> r[0] == Some(1.0)
    ensures !NeutralSecondDownRun(p) ==> r[1] == Some(1.0)
    ensures !(p.incompletePass == 1 && p.interception != 1) ==> r[2] == Some(1.0)
    ensures !(p.sack != 1 && p.fumbleLost == 1) ==> r[3] == Some(1.0)
    ensures p.interception != 1 ==> r[4] == Some(1.0)
    ensures !(p.yardline100 < 3.0 && p.down < 4) ==> r[5] == Some(1.0)
    ensures r[6].Some? <==> p.wp.Some? && p.season in weights && 6 < |weights[p.season]|
    ensures p.season in weights && |weights[p.season]| >= 7 && p.wp.Some? ==> SevenPresent(r)
  {
    [ Conditional(Coef(weights, p.season, 0), p.qbScramble == 1 && p.fumbleLost != 1),
      Conditional(Coef(weights, p.season, 1), NeutralSecondDownRun(p)),
      IncompletionWeight(m, Coef(weights, p.season, 2), p),
      Conditional(Coef(weights, p.season, 3), p.sack != 1 && p.fumbleLost == 1),
      Conditional(Coef(weights, p.season, 4), p.interception == 1),
      Conditional(Coef(weights, p.season, 5), p.yardline100 < 3.0 && p.down < 4),
      ScaledWinProbWeight(m, Coef(weights, p.season, 6), p.wp) ]
  }

  /** The seven defensive weight columns: QB rush, neutral second-down run,
      incompletion depth, sack fumble, interception, field goal, positive
      third down. Each is 1 on a play that does not meet its condition. */
  function DefenseWeights(m: Math, weights: map<int, seq<real>>, p: Play): (r: seq<Option<real>>)
    ensures |r| == 7
    ensures !(p.qbScramble == 1 && p.fumbleLost != 1) ==> r[0] == Some(1.0)
    ensures !NeutralSecondDownRun(p) ==> r[1] == Some(1.0)
    ensures !(p.incompletePass == 1 && p.interception != 1) ==> r[2] == Some(1.0)
    ensures !(p.sack == 1 && p.fumbleLost == 1) ==> r[3] == Some(1.0)
    ensures p.interception != 1 ==> r[4] == Some(1.0)
    ensures p.playType != "field_goal" ==> r[5] == Some(1.0)
    ensures !(p.down == 3 && Above(p.epa, 0.0)) ==> r[6] == Some(1.0)
    ensures p.season in weights && |weights[p.season]| >= 14 ==> SevenPresent(r)
  {
    var qbRush := Conditional(Coef(weights, p.season, 7), p.qbScramble == 1 && p.fumbleLost != 1);
    var neutralRun := Conditional(Coef(weights, p.season, 8), NeutralSecondDownRun(p));
    var incompletion := IncompletionWeight(m, Coef(weights, p.season, 9), p);
    var sackFumble := Conditional(Coef(weights, p.season, 10), p.sack == 1 && p.fumbleLost == 1);
    var interception := Conditional(Coef(weights, p.season, 11), p.interception == 1);
    var fieldGoal := Conditional(Coef(weights, p.season, 12), p.playType == "field_goal");
    var thirdDown := Conditional(Coef(weights, p.season, 13), p.down == 3 && Above(p.epa, 0.0));
    [qbRush, neutralRun, incompletion, sackFumble, interception, fieldGoal, thirdDown]
  }

  /** With the season's coefficients known, a conditional offensive weight
      differs from 1 exactly when its condition holds and its coefficient
      is not zero. */
  lemma OffenseWeightsFireOnTheirConditions(m: Math, weights: map<int, seq<real>>, p: Play)
    requires p.season in weights && |weights[p.season]| >= 7
    ensures var r := OffenseWeights(m, weights, p);
            var c := weights[p.season];
            (r[0] != Some(1.0) <==> (p.qbScramble == 1 && p.fumbleLost != 1) && c[0] != 0.0) &&
            (r[1] != Some(1.0) <==> NeutralSecondDownRun(p) && c[1] != 0.0) &&
            (r[3] != Some(1.0) <==> (p.sack != 1 && p.fumbleLost == 1) && c[3] != 0.0) &&
            (r[4] != Some(1.0) <==> p.interception == 1 && c[4] != 0.0) &&
            (r[5] != Some(1.0) <==> (p.yardline100 < 3.0 && p.down < 4) && c[5] != 0.0)
  {
  }

  /** With the season's coefficients known, a conditional defensive weight
      differs from 1 exactly when its condition holds and its coefficient
      is not zero. */
  lemma DefenseWeightsFireOnTheirConditions(m: Math, weights: map<int, seq<real>>, p: Play)
    requires p.season in weights && |weights[p.season]| >= 14
    ensures var r := DefenseWeights(m, weights, p);
            var c := weights[p.season];
            (r[0] != Some(1.0) <==> (p.qbScramble == 1 && p.fumbleLost != 1) && c[7] != 0.0) &&
            (r[1] != Some(1.0) <==> NeutralSecondDownRun(p) && c[8] != 0.0) &&
            (r[3] != Some(1.0) <==> (p.sack == 1 && p.fumbleLost == 1) && c[10] != 0.0) &&
            (r[4] != Some(1.0) <==> p.interception == 1 && c[11] != 0.0) &&
            (r[5] != Some(1.0) <==> p.playType == "field_goal" && c[12] != 0.0) &&
            (r[6] != Some(1.0) <==> (p.down == 3 && Above(p.epa, 0.0)) && c[13] != 0.0)
  {
  }

  // -------------------------------------------------------------------
  // products and the clamp

  /** Multiplication with NaN propagation. */
  function Times(a: Option<real>, b: Option<real>): (r: Option<real>)
    ensures r.Some? <==> a.Some? && b.Some?
  {
    if a.Some? && b.Some? then Some(a.value * b.value) else None
  }

  /** `base` multiplied by each weight in turn. */
  function Product(base: Option<real>, ws: seq<Option<real>>): Option<real> {
    if |ws| == 0 then base else Times(Product(base, ws[..|ws| - 1]), ws[|ws| - 1])
  }

  /** The product is NaN exactly when the base or some weight is. */
  lemma {:induction false} ProductIsNaN(base: Option<real>, ws: seq<Option<real>>)
    ensures Product(base, ws).Some? <==> base.Some? && forall i :: 0 <= i < |ws| ==> ws[i].Some?
  {
    if |ws| > 0 {
      var init := ws[..|ws| - 1];
      ProductIsNaN(base, init);
      assert forall i :: 0 <= i < |init| ==> init[i] == ws[i];
    }
  }

  /** Multiplying by weights scales the base: the product is the base
      times the product of the weights alone. */
  lemma {:induction false} ProductScalesBase(base: Option<real>, ws: seq<Option<real>>)
    requires base.Some? && forall i :: 0 <= i < |ws| ==> ws[i].Some?
    ensures Product(Some(1.0), ws).Some? && Product(base, ws).Some?
    ensures Product(base, ws).value == base.value * Product(Some(1.0), ws).value
  {
    if |ws| > 0 {
      var init := ws[..|ws| - 1];
      assert forall i :: 0 <= i < |init| ==> init[i].Some? by {
        forall i | 0 <= i < |init| ensures init[i] == ws[i] { }
      }
      ProductScalesBase(base, init);
      var b := base.value;
      var w := ws[|ws| - 1].value;
      var q := Product(Some(1.0), init).value;
      assert Product(base, ws).value == (b * q) * w;
      assert Product(Some(1.0), ws).value == q * w;
      assert (b * q) * w == b * (q * w);
    }
  }

  /** Every weight of a seven-column table is a number. */
  predicate SevenPresent(ws: seq<Option<real>>) {
    |ws| == 7 && ws[0].Some? && ws[1].Some? && ws[2].Some? && ws[3].Some? &&
    ws[4].Some? && ws[5].Some? && ws[6].Some?
  }

  /** Weights that are all one leave the base unchanged. */
  lemma {:induction false} ProductOfOnes(base: Option<real>, ws: seq<Option<real>>)
    requires forall i :: 0 <= i < |ws| ==> ws[i] == Some(1.0)
    ensures Product(base, ws) == base
  {
    if |ws| > 0 {
      var init := ws[..|ws| - 1];
      assert forall i :: 0 <= i < |init| ==> init[i] == Some(1.0) by {
        forall i | 0 <= i < |init| ensures init[i] == ws[i] { }
      }
      ProductOfOnes(base, init);
    }
  }

  /** `where(x > 10, 10, x)` then `where(x < -10, -10, x)`; NaN stays. */
  function Clamp10(x: Option<real>): (r: Option<real>)
    ensures r.Some? <==> x.Some?
    ensures r.Some? ==> -10.0 <= r.value <= 10.0
    ensures r.Some? && -10.0 <= x.value <= 10.0 ==> r.value == x.value
    ensures r.Some? && x.value > 10.0 ==> r.value == 10.0
    ensures r.Some? && x.value < -10.0 ==> r.value == -10.0
  {
    match x
    case None => None
    case Some(v) => Some(if v > 10.0 then 10.0 else if v < -10.0 then -10.0 else v)
  }

  datatype Graded = Graded(wepa: Option<real>, dWepa: Option<real>)

  /** The offensive base: EPA. The defensive base: EPA * (1 + defense_adj). */
  function DefenseBase(weights: map<int, seq<real>>, p: Play): (r: Option<real>)
    ensures r.Some? <==> p.epa.Some? && Coef(weights, p.season, 14).Some?
    ensures r.Some? ==> r.value == p.epa.value * (1.0 + Coef(weights, p.season, 14).value)
  {
    Times(p.epa, Conditional(Coef(weights, p.season, 14), true))
  }

  /** Multiplies `base` by each weight in turn. */
  method MultiplyAll(base: Option<real>, ws: seq<Option<real>>) returns (r: Option<real>)
    ensures r == Product(base, ws)
  {
    r := base;
    for i := 0 to |ws|
      invariant r == Product(base, ws[..i])
    {
      assert ws[..i + 1][..i] == ws[..i];
      r := Times(r, ws[i]);
    }
    assert ws[..|ws|] == ws;
  }

  /** wepa_grade for one play: the two products, built column by column,
      then clamped to [-10, 10]. */
  method GradePlay(m: Math, weights: map<int, seq<real>>, p: Play) returns (g: Graded)
    ensures g.wepa == Clamp10(Product(p.epa, OffenseWeights(m, weights, p)))
    ensures g.dWepa == Clamp10(Product(DefenseBase(weights, p), DefenseWeights(m, weights, p)))
  {
    var offense := OffenseWeights(m, weights, p);
    var wepa := MultiplyAll(p.epa, offense);
    var defense := DefenseWeights(m, weights, p);
    var base := DefenseBase(weights, p);
    var dWepa := MultiplyAll(base, defense);
    g := Graded(Clamp10(wepa), Clamp10(dWepa));
  }

  /** A season missing from the weight table grades every play NaN. */
  lemma MissingSeasonIsNaN(m: Math, weights: map<int, seq<real>>, p: Play)
    requires p.season !in weights
    ensures Product(p.epa, OffenseWeights(m, weights, p)).None?
    ensures Product(DefenseBase(weights, p), DefenseWeights(m, weights, p)).None?
  {
    var offense := OffenseWeights(m, weights, p);
    assert offense[6].None?;
    ProductIsNaN(p.epa, offense);
    ProductIsNaN(DefenseBase(weights, p), DefenseWeights(m, weights, p));
  }

  /** A NaN EPA makes both products NaN; a NaN win probability makes the
      offensive product NaN through the scaled win-probability weight. */
  lemma NaNPlayIsNaN(m: Math, weights: map<int, seq<real>>, p: Play)
    ensures p.epa.None? || p.wp.None? ==> Product(p.epa, OffenseWeights(m, weights, p)).None?
    ensures p.epa.None? ==> Product(DefenseBase(weights, p), DefenseWeights(m, weights, p)).None?
  {
    ProductIsNaN(p.epa, OffenseWeights(m, weights, p));
    ProductIsNaN(DefenseBase(weights, p), DefenseWeights(m, weights, p));
  }

  /** A play that triggers no weight, with a known win probability in a
      season whose win-probability coefficient is zero, keeps its EPA (up
      to the clamp). */
  lemma UnweightedPlayKeepsEpa(m: Math, weights: map<int, seq<real>>, p: Play)
    requires p.season in weights && |weights[p.season]| >= 15 && weights[p.season][6] == 0.0
    requires p.wp.Some?
    requires !(p.qbScramble == 1 && p.fumbleLost != 1) && !NeutralSecondDownRun(p)
    requires !(p.incompletePass == 1 && p.interception != 1)
    requires !(p.sack != 1 && p.fumbleLost == 1) && p.interception != 1
    requires !(p.yardline100 < 3.0 && p.down < 4)
    ensures Product(p.epa, OffenseWeights(m, weights, p)) == p.epa
  {
    var off := OffenseWeights(m, weights, p);
    assert off[6] == Some(1.0);
    ProductOfOnes(p.epa, off);
  }

  // -------------------------------------------------------------------
  // game level

  /** One team's game-level row: the play sums for the offence (`team`)
      against `opponent`. */
  datatype GameRow = GameRow(
    team: string, opponent: string, season: int, gameId: string, gameNumber: int,
    margin: real, wepa: real, dWepa: real, epa: real)

  /** The row both merges find for a team: the first row of the same game
      whose defence is that team, that is, the opponent's offence. */
  function OpponentRow(rows: seq<GameRow>, team: string, gameId: string): (r: Option<nat>)
    ensures r.Some? ==> r.value < |rows| && rows[r.value].opponent == team && rows[r.value].gameId == gameId
    ensures r.None? <==> forall j :: 0 <= j < |rows| ==> !(rows[j].opponent == team && rows[j].gameId == gameId)
    ensures r.Some? ==> forall j :: 0 <= j < r.value ==> !(rows[j].opponent == team && rows[j].gameId == gameId)
  {
    if |rows| == 0 then None
    else if rows[0].opponent == team && rows[0].gameId == gameId then Some(0)
    else
      var rest := OpponentRow(rows[1..], team, gameId);
      if rest.Some? then Some(rest.value + 1) else None
  }

  /** The game columns after both merges: the opponent's sums, wepa_net,
      and the opponent's wepa_net; NaN where no opponent row exists. */
  datatype NetRow = NetRow(
    row: GameRow, marginAgainst: Option<real>, wepaAgainst: Option<real>,
    dWepaAgainst: Option<real>, epaAgainst: Option<real>,
    wepaNet: Option<real>, wepaNetOpponent: Option<real>)

  /** wepa_net = wepa - d_wepa_against. */
  function WepaNet(rows: seq<GameRow>, i: nat): (r: Option<real>)
    requires i < |rows|
    ensures r.Some? <==> OpponentRow(rows, rows[i].team, rows[i].gameId).Some?
    ensures r.Some? ==> r.value == rows[i].wepa - rows[OpponentRow(rows, rows[i].team, rows[i].gameId).value].dWepa
  {
    match OpponentRow(rows, rows[i].team, rows[i].gameId)
    case None => None
    case Some(j) => Some(rows[i].wepa - rows[j].dWepa)
  }

  /** One row of wepa_grade's result: the first merge brings in the
      opponent's margin and sums, the second the opponent's wepa_net. */
  function NetAt(rows: seq<GameRow>, i: nat): (r: NetRow)
    requires i < |rows|
    ensures r.row == rows[i] && r.wepaNet == WepaNet(rows, i)
    ensures r.dWepaAgainst.Some? <==> OpponentRow(rows, rows[i].team, rows[i].gameId).Some?
    ensures r.epaAgainst.Some? <==> OpponentRow(rows, rows[i].team, rows[i].gameId).Some?
    ensures r.wepaNetOpponent.Some? ==>
      exists k :: 0 <= k < |rows| && rows[k].opponent == rows[i].team && rows[k].gameId == rows[i].gameId &&
                  r.wepaNetOpponent == WepaNet(rows, k)
  {
    var opp := OpponentRow(rows, rows[i].team, rows[i].gameId);
    var against := if opp.Some? then Some(rows[opp.value]) else None;
    NetRow(rows[i],
      if against.Some? then Some(against.value.margin) else None,
      if against.Some? then Some(against.value.wepa) else None,
      if against.Some? then Some(against.value.dWepa) else None,
      if against.Some? then Some(against.value.epa) else None,
      WepaNet(rows, i),
      if opp.Some? then WepaNet(rows, opp.value) else None)
  }

  /** The game-level columns of wepa_grade. */
  function NetRows(rows: seq<GameRow>): (r: seq<NetRow>)
    ensures |r| == |rows|
    ensures forall i :: 0 <= i < |rows| ==> r[i].row == rows[i] && r[i].wepaNet == WepaNet(rows, i)
  {
    seq(|rows|, i requires 0 <= i < |rows| => NetAt(rows, i))
  }

  /** With one row per defence and game, a game whose two rows face each
      other nets each offence against the other side's defensive wepa, and
      each row's wepa_net_opponent is the other row's wepa_net. */
  lemma NetIsMutual(rows: seq<GameRow>, i: nat, j: nat)
    requires i < |rows| && j < |rows|
    requires forall a, b :: 0 <= a < b < |rows| ==>
               !(rows[a].opponent == rows[b].opponent && rows[a].gameId == rows[b].gameId)
    requires rows[j].opponent == rows[i].team && rows[j].gameId == rows[i].gameId
    ensures WepaNet(rows, i) == Some(rows[i].wepa - rows[j].dWepa)
    ensures NetAt(rows, i).wepaNetOpponent == WepaNet(rows, j)
  {
    var opp := OpponentRow(rows, rows[i].team, rows[i].gameId);
    assert opp.Some?;
    var k := opp.value;
    if k < j {
    } else if k > j {
    }
    assert k == j;
  }

  /** The published columns: epa_net and epa_net_opponent, for seasons
      after 1999. */
  datatype Published = Published(net: NetRow, epaNet: Option<real>, epaNetOpponent: Option<real>)

  function Publish(net: seq<NetRow>): (r: seq<Published>)
    ensures |r| <= |net|
    ensures forall k :: 0 <= k < |r| ==> r[k].net in net && r[k].net.row.season > 1999
    ensures forall k :: 0 <= k < |r| ==>
      (r[k].epaNet.Some? <==> r[k].net.epaAgainst.Some?) &&
      (r[k].epaNet.Some? ==> r[k].epaNet.value == r[k].net.row.epa - r[k].net.epaAgainst.value)
  {
    if |net| == 0 then []
    else
      var rest := Publish(net[1..]);
      var n := net[0];
      if n.row.season > 1999 then
        var against := n.epaAgainst;
        [Published(n,
          if against.Some? then Some(n.row.epa - against.value) else None,
          if against.Some? then Some(against.value - n.row.epa) else None)] + rest
      else rest
  }

  /** Every row of a season after 1999 is published. */
  lemma {:induction false} PublishKeepsModernSeasons(net: seq<NetRow>, i: nat)
    requires i < |net| && net[i].row.season > 1999
    ensures exists k :: 0 <= k < |Publish(net)| && Publish(net)[k].net == net[i]
  {
    if i == 0 {
      assert Publish(net)[0].net == net[0];
    } else {
      PublishKeepsModernSeasons(net[1..], i - 1);
      var k :| 0 <= k < |Publish(net[1..])| && Publish(net[1..])[k].net == net[1..][i - 1];
      if net[0].row.season > 1999 {
        assert Publish(net)[k + 1].net == net[i];
      } else {
        assert Publish(net)[k].net == net[i];
      }
    }
  }

  /** epa_net_opponent is the negation of epa_net. */
  lemma {:induction false} EpaNetOpponentIsNegation(net: seq<NetRow>, k: nat)
    requires k < |Publish(net)|
    ensures var p := Publish(net)[k];
            (p.epaNetOpponent.Some? <==> p.epaNet.Some?) &&
            (p.epaNet.Some? ==> p.epaNetOpponent.value == -p.epaNet.value)
  {
    if net[0].row.season > 1999 {
      if k > 0 {
        EpaNetOpponentIsNegation(net[1..], k - 1);
      }
    } else {
      EpaNetOpponentIsNegation(net[1..], k);
    }
  }

  // -------------------------------------------------------------------
  // play preparation in calculate_wepa

  /** Extra points carry a bad EPA in early seasons, so it is zeroed. */
  function PrepEpa(playType: string, epa: Option<real>): (r: Option<real>)
    ensures playType == "extra_point" ==> r == Some(0.0)
    ensures playType != "extra_point" ==> r == epa
  {
    if playType == "extra_point" then Some(0.0) else epa
  }

  /** `season + '_' + week.zfill(2) + '_' + away + '_' + home`. */
  function GameId(season: int, week: int, away: string, home: string): string {
    IntToString(season) + "_" + ZFill(IntToString(week), 2) + "_" + away + "_" + home
  }

  /** Zero-filling introduces no character other than '0'. */
  lemma {:induction false} ZFillKeepsOut(s: string, width: nat, c: char)
    requires c != '0' && c !in s
    ensures c !in ZFill(s, width)
    decreases width - |s|
  {
    if |s| < width {
      if |s| > 0 && (s[0] == '-' || s[0] == '+') {
        var t := [s[0]] + "0" + s[1..];
        assert forall x :: x in t ==> x in s || x == '0' by {
          forall x | x in t ensures x in s || x == '0' {
            var k :| 0 <= k < |t| && t[k] == x;
            if k >= 2 { assert t[k] == s[k - 1]; }
          }
        }
        ZFillKeepsOut(t, width, c);
      } else {
        ZFillKeepsOut("0" + s, width, c);
      }
    }
  }

  lemma IntToStringHasNoUnderscore(i: int)
    ensures '_' !in IntToString(i)
  {
    var s := IntToString(i);
    forall k | 0 <= k < |s| ensures s[k] != '_' {
      if i < 0 && k > 0 {
        assert s[k] == s[1..][k - 1];
      }
    }
  }

  /** A game id is its four fields joined by '_'. */
  lemma GameIdIsJoin(season: int, week: int, away: string, home: string)
    ensures Join([IntToString(season), ZFill(IntToString(week), 2), away, home], "_")
            == GameId(season, week, away, home)
  {
    var parts := [IntToString(season), ZFill(IntToString(week), 2), away, home];
    assert parts[1..][1..][1..] == [home];
    assert Join(parts[1..][1..], "_") == away + "_" + home;
  }

  /** A game id splits on '_' back into its four fields. */
  lemma GameIdFields(season: int, week: int, away: string, home: string)
    requires '_' !in away && '_' !in home
    ensures Split(GameId(season, week, away, home), "_") ==
            [IntToString(season), ZFill(IntToString(week), 2), away, home]
  {
    IntToStringHasNoUnderscore(season);
    IntToStringHasNoUnderscore(week);
    ZFillKeepsOut(IntToString(week), 2, '_');
    GameIdIsJoin(season, week, away, home);
    SplitJoin([IntToString(season), ZFill(IntToString(week), 2), away, home], '_');
  }

  /** The week field is two characters long and parses back to the week,
      for weeks 0-99. */
  lemma WeekFieldParses(week: int)
    requires 0 <= week < 100
    ensures |ZFill(IntToString(week), 2)| == 2
    ensures ParseInt(ZFill(IntToString(week), 2)) == Ok(week)
  {
    ZFillDigits(IntToString(week), 2);
    DigitsValueOfNatToString(week);
  }

  /** The inferred dropback: ' pass ', ' sacked' or ' scramble' in the
      description. */
  predicate DescDropback(desc: string) {
    Contains(desc, " pass ") || Contains(desc, " sacked") || Contains(desc, " scramble")
  }

  /** The inferred run: none of the passing or kicking phrases, and both
      ' to ' and ' for '. */
  predicate DescRun(desc: string) {
    !Contains(desc, " pass ") && !Contains(desc, " sacked") && !Contains(desc, " scramble") &&
    !Contains(desc, " kicks ") && !Contains(desc, " punts ") && !Contains(desc, " field goal ") &&
    Contains(desc, " to ") && Contains(desc, " for ")
  }

  /** The coded flags coalesced with the inferred ones, and the play call. */
  datatype Classified = Classified(qbDropback: int, rushAttempt: int, playCall: PlayCall)

  function Flag(b: bool): int { if b then 1 else 0 }

  /** `max(axis=1)` over a coded flag (NaN skipped) and an inferred one. */
  function MaxFlag(coded: Option<int>, inferred: int): (r: int)
    ensures r >= inferred
    ensures coded.Some? ==> r >= coded.value
    ensures r == inferred || (coded.Some? && r == coded.value)
  {
    if coded.Some? && coded.value > inferred then coded.value else inferred
  }

  /** Dropback and rush flags from the coded columns and the description,
      and `play_call`: Pass on a dropback, else Run on a rush attempt, else
      NaN. */
  function Classify(codedDropback: Option<int>, codedRush: Option<int>, desc: string): (r: Classified)
    ensures r.qbDropback == MaxFlag(codedDropback, Flag(DescDropback(desc)))
    ensures r.rushAttempt == MaxFlag(codedRush, Flag(DescRun(desc)))
    ensures r.playCall == Pass <==> r.qbDropback == 1
    ensures r.playCall == Run <==> r.qbDropback != 1 && r.rushAttempt == 1
  {
    var dropback := MaxFlag(codedDropback, Flag(DescDropback(desc)));
    var rush := MaxFlag(codedRush, Flag(DescRun(desc)));
    Classified(dropback, rush,
      if dropback == 1 then Pass else if rush == 1 then Run else NoCall)
  }

  /** The two inferred flags are never both set, and with the coded flags
      at most 1, a described pass is always called a pass and a described
      run (with no coded dropback) a run. */
  lemma InferredFlagsExclusive(codedDropback: Option<int>, codedRush: Option<int>, desc: string)
    requires codedDropback.Some? ==> 0 <= codedDropback.value <= 1
    requires codedRush.Some? ==> 0 <= codedRush.value <= 1
    ensures !(DescDropback(desc) && DescRun(desc))
    ensures DescDropback(desc) ==> Classify(codedDropback, codedRush, desc).playCall == Pass
    ensures DescRun(desc) && codedDropback != Some(1) ==> Classify(codedDropback, codedRush, desc).playCall == Run
  {
  }
}
