/** Win-total ratings (models/calculate_wt_ratings.py): vig-free season
    win-total probabilities, the odds-adjusted line, the optimiser's
    variables, expected wins from a rating vector, the fit's RMSE, and the
    strength of schedule. */
module WtRatings {
  import opened Wrappers
  import opened Numerics
  import Odds
  import ST = SpreadTranslation
  import GM = GraderModel

  // -------------------------------------------------------------------
  // calc_vf_over_prob / calc_probs_and_hold / calc_vig_free_odds

  /** Odds a book can quote: at most -100 or at least +100. */
  predicate QuotableOdds(odds: int) {
    odds <= -100 || odds >= 100
  }

  /** calc_vf_over_prob: the over's share of the two implied probabilities;
      numpy gives NaN or an infinity for a zero total. */
  function VigFreeOver(overProb: real, underProb: real): (r: Option<real>)
    ensures r.Some? <==> overProb + underProb != 0.0
    ensures r.Some? ==> r.value * (overProb + underProb) == overProb
    ensures r.Some? && overProb >= 0.0 && underProb >= 0.0 ==> 0.0 <= r.value <= 1.0
  {
    if overProb + underProb == 0.0 then None
    else
      var t := overProb + underProb;
      assert (overProb / t) * t == overProb;
      assert overProb >= 0.0 && underProb >= 0.0 ==> 0.0 <= overProb / t <= 1.0 by {
        if overProb >= 0.0 && underProb >= 0.0 { ShareWithinUnit(overProb, t); }
      }
      Some(overProb / t)
  }

  /** The vig-free over and under probabilities and the book's hold. */
  datatype VigFree = VigFree(over: real, under: real, hold: real)

  /** calc_probs_and_hold: both prices as probabilities (american_to_prob,
      the same rule as odds.py's american_to_prob_int), the over's
      vig-free share, its complement, and the hold, the amount by which
      the two probabilities exceed one. */
  function CalcProbsAndHold(over: int, under: int): (r: Option<VigFree>)
    ensures QuotableOdds(over) && QuotableOdds(under) ==> r.Some?
    ensures r.Some? ==> r.value.over + r.value.under == 1.0
    ensures r.Some? ==> r.value.hold == Odds.AmericanToProbInt(over) + Odds.AmericanToProbInt(under) - 1.0
    ensures r.Some? ==> Odds.AmericanToProbInt(over) == r.value.over * (1.0 + r.value.hold)
    ensures r.Some? && QuotableOdds(over) && QuotableOdds(under) ==> 0.0 <= r.value.over <= 1.0
  {
    var op := Odds.AmericanToProbInt(over);
    var up := Odds.AmericanToProbInt(under);
    match VigFreeOver(op, up)
    case None => None
    case Some(vf) => Some(VigFree(vf, 1.0 - vf, (op + up) - 1.0))
  }

  /** Removing the hold leaves the under its proportional share too, and
      the same price on both sides is a coin flip. */
  lemma VigFreeIsProportional(over: int, under: int)
    requires CalcProbsAndHold(over, under).Some?
    ensures var v := CalcProbsAndHold(over, under).value;
            Odds.AmericanToProbInt(under) == v.under * (1.0 + v.hold)
    ensures over == under ==> CalcProbsAndHold(over, under).value.over == 0.5
  {
    ProportionalShares(Odds.AmericanToProbInt(over), Odds.AmericanToProbInt(under));
  }

  /** The complement of a share of a nonzero whole, times the whole, is the
      other part; equal parts are half each. */
  lemma ProportionalShares(a: real, b: real)
    requires a + b != 0.0
    ensures (1.0 - a / (a + b)) * (a + b) == b
    ensures a == b ==> a / (a + b) == 0.5
  {
    var t := a + b;
    var x := a / t;
    assert x * t == a;
    assert (1.0 - x) * t == t - x * t;
    if a == b {
      assert a != 0.0;
      assert a * (2.0 * x - 1.0) == x * t - a;
    }
  }

  /** One season's win-total row: the line and both prices. */
  datatype TotalRow = TotalRow(team: string, season: int, line: real, overOdds: int, underOdds: int)

  /** The columns calc_vig_free_odds leaves: the vig-free probabilities,
      the logit of the over's, and the adjusted line. */
  datatype LineRow = LineRow(team: string, season: int, line: real,
                             overVf: real, underVf: real, logitOver: real, lineAdj: real)

  /** `log(p / (1 - p))`, finite only for p strictly between 0 and 1. */
  function Logit(m: Math, p: real): (r: Option<real>)
    ensures r.Some? <==> 0.0 < p < 1.0
  {
    if 0.0 < p < 1.0 then Some(m.ln(p / (1.0 - p))) else None
  }

  /** line_adj = line + logit(vf_over) * over_prob_logit_coef. */
  predicate Adjusted(m: Math, logitCoef: real, r: LineRow) {
    Logit(m, r.overVf) == Some(r.logitOver) && r.lineAdj == r.line + r.logitOver * logitCoef
  }

  /** calc_vig_free_odds for one row: line_adj = line + logit(vf_over) *
      over_prob_logit_coef.  A row whose prices leave no finite logit is
      `None` (numpy carries an infinity or NaN forward). */
  function CalcVigFreeOdds(m: Math, logitCoef: real, row: TotalRow): (r: Option<LineRow>)
    ensures QuotableOdds(row.overOdds) && QuotableOdds(row.underOdds) && row.overOdds == row.underOdds ==> r.Some?
    ensures r.Some? ==> r.value.team == row.team && r.value.season == row.season && r.value.line == row.line
    ensures r.Some? ==> CalcProbsAndHold(row.overOdds, row.underOdds).Some?
                        && r.value.overVf == CalcProbsAndHold(row.overOdds, row.underOdds).value.over
                        && r.value.overVf + r.value.underVf == 1.0
    ensures r.Some? ==> Adjusted(m, logitCoef, r.value)
  {
    var v := CalcProbsAndHold(row.overOdds, row.underOdds);
    assert QuotableOdds(row.overOdds) && QuotableOdds(row.underOdds) && row.overOdds == row.underOdds ==> v == Some(VigFree(0.5, 0.5, v.value.hold)) by {
      if QuotableOdds(row.overOdds) && QuotableOdds(row.underOdds) && row.overOdds == row.underOdds {
        VigFreeIsProportional(row.overOdds, row.underOdds);
      }
    }
    if v.None? then None
    else
      match Logit(m, v.value.over)
      case None => None
      case Some(l) => Some(LineRow(row.team, row.season, row.line, v.value.over, v.value.under, l, row.line + l * logitCoef))
  }

  /** The adjustment moves the line toward the favoured side: with a
      positive coefficient and a logarithm positive exactly above 1, the
      adjusted line exceeds the posted line exactly when the over is more
      likely than the under, and equals it at even odds. */
  lemma LineAdjFollowsOver(m: Math, logitCoef: real, r: LineRow)
    requires logitCoef > 0.0
    requires Adjusted(m, logitCoef, r)
    requires var q := r.overVf / (1.0 - r.overVf);
             (m.ln(q) > 0.0 <==> q > 1.0) && (m.ln(q) == 0.0 <==> q == 1.0)
    ensures r.lineAdj > r.line <==> r.overVf > 0.5
    ensures r.lineAdj == r.line <==> r.overVf == 0.5
  {
    OddsRatioAboveOne(r.overVf);
    ProductSign(r.logitOver, logitCoef);
  }

  /** The odds p / (1 - p) exceed one exactly when p exceeds one half. */
  lemma OddsRatioAboveOne(p: real)
    requires 0.0 < p < 1.0
    ensures p / (1.0 - p) > 1.0 <==> p > 0.5
    ensures p / (1.0 - p) == 1.0 <==> p == 0.5
  {
    var q := p / (1.0 - p);
    var d := 1.0 - p;
    assert q * d == p && d > 0.0;
    assert q * d - d == (q - 1.0) * d;
    if q > 1.0 {
      assert (q - 1.0) * d > 0.0;
    } else if q < 1.0 {
      assert (1.0 - q) * d > 0.0;
    }
  }

  /** A positive factor keeps the sign of the other one. */
  lemma ProductSign(a: real, c: real)
    requires c > 0.0
    ensures a * c > 0.0 <==> a > 0.0
    ensures a * c == 0.0 <==> a == 0.0
  {
    if a < 0.0 {
      assert (-a) * c > 0.0;
    }
  }

  // -------------------------------------------------------------------
  // construct_vars / construct_vars_elo

  datatype Bound = Bound(lo: real, hi: real)

  /** The optimiser's starting point, variable names and bounds. */
  datatype OptiVars = OptiVars(guesses: seq<real>, keys: seq<string>, bounds: seq<Bound>)

  /** `sort_values(by=['team'])`. */
  function TeamLe(a: LineRow, b: LineRow): bool {
    StringLe(a.team, b.team)
  }

  lemma TeamOrder()
    ensures TotalPreorder(TeamLe)
  {
    forall a: LineRow, b: LineRow ensures TeamLe(a, b) || TeamLe(b, a) {
      StringLeTotal(a.team, b.team);
    }
    forall a: LineRow, b: LineRow, c: LineRow | TeamLe(a, b) && TeamLe(b, c) ensures TeamLe(a, c) {
      StringLeTransitive(a.team, b.team, c.team);
    }
  }

  /** The loop shared by construct_vars and construct_vars_elo, over rows
      already in team order: HFA first, then one variable per row with its
      guess and the common team bound. */
  method AppendVars(rows: seq<LineRow>, hfaGuess: real, hfaBound: Bound,
                    guess: real -> real, teamBound: Bound) returns (v: OptiVars)
    ensures |v.guesses| == |v.keys| == |v.bounds| == 1 + |rows|
    ensures v.keys[0] == "HFA" && v.guesses[0] == hfaGuess && v.bounds[0] == hfaBound
    ensures forall j :: 0 <= j < |rows| ==>
      v.keys[j + 1] == rows[j].team && v.guesses[j + 1] == guess(rows[j].lineAdj) && v.bounds[j + 1] == teamBound
  {
    var guesses := [hfaGuess];
    var keys := ["HFA"];
    var bounds := [hfaBound];
    for i := 0 to |rows|
      invariant |guesses| == |keys| == |bounds| == 1 + i
      invariant keys[0] == "HFA" && guesses[0] == hfaGuess && bounds[0] == hfaBound
      invariant forall j :: 0 <= j < i ==>
        keys[j + 1] == rows[j].team && guesses[j + 1] == guess(rows[j].lineAdj) && bounds[j + 1] == teamBound
    {
      ghost var guesses0, keys0, bounds0 := guesses, keys, bounds;
      guesses := guesses + [guess(rows[i].lineAdj)];
      assert guesses[..i + 1] == guesses0 && guesses[i + 1] == guess(rows[i].lineAdj);
      keys := keys + [rows[i].team];
      assert keys[..i + 1] == keys0 && keys[i + 1] == rows[i].team;
      bounds := bounds + [teamBound];
      assert bounds[..i + 1] == bounds0 && bounds[i + 1] == teamBound;
    }
    v := OptiVars(guesses, keys, bounds);
  }

  /** construct_vars and construct_vars_elo: `sort_values(by=['team'])`, then
      the loop. */
  method ConstructWith(lines: seq<LineRow>, hfaGuess: real, hfaBound: Bound,
                       guess: real -> real, teamBound: Bound) returns (v: OptiVars)
    ensures |v.guesses| == |v.keys| == |v.bounds| == 1 + |lines|
    ensures v.keys[0] == "HFA" && v.guesses[0] == hfaGuess && v.bounds[0] == hfaBound
    ensures forall i :: 1 <= i < |v.bounds| ==> v.bounds[i] == teamBound
    ensures forall i, j :: 1 <= i < j < |v.keys| ==> StringLe(v.keys[i], v.keys[j])
    ensures forall r :: r in lines ==>
      exists i :: 1 <= i < |v.keys| && v.keys[i] == r.team && v.guesses[i] == guess(r.lineAdj)
  {
    var sorted := SortBy(lines, TeamLe);
    SortByLength(lines, TeamLe);
    v := AppendVars(sorted, hfaGuess, hfaBound, guess, teamBound);
    forall i | 1 <= i < |v.bounds| ensures v.bounds[i] == teamBound {
      assert v.keys[(i - 1) + 1] == sorted[i - 1].team;
    }
    TeamOrder();
    SortBySorted(lines, TeamLe);
    forall i, j | 1 <= i < j < |v.keys| ensures StringLe(v.keys[i], v.keys[j]) {
      assert v.keys[(i - 1) + 1] == sorted[i - 1].team && v.keys[(j - 1) + 1] == sorted[j - 1].team;
      assert TeamLe(sorted[i - 1], sorted[j - 1]);
    }
    SortByPermutation(lines, TeamLe);
    forall r | r in lines
      ensures exists i :: 1 <= i < |v.keys| && v.keys[i] == r.team && v.guesses[i] == guess(r.lineAdj)
    {
      assert r in multiset(sorted);
      var k :| 0 <= k < |sorted| && sorted[k] == r;
      assert v.keys[k + 1] == r.team && v.guesses[k + 1] == guess(r.lineAdj);
    }
  }

  /** construct_vars: HFA with guess 1.5 within (-5, 5), then each team with
      guess line_adj - 8 within (-15, 15). */
  method ConstructVars(lines: seq<LineRow>) returns (v: OptiVars)
    ensures |v.guesses| == |v.keys| == |v.bounds| == 1 + |lines|
    ensures v.keys[0] == "HFA" && v.guesses[0] == 1.5 && v.bounds[0] == Bound(-5.0, 5.0)
    ensures forall i :: 1 <= i < |v.bounds| ==> v.bounds[i] == Bound(-15.0, 15.0)
    ensures forall i, j :: 1 <= i < j < |v.keys| ==> StringLe(v.keys[i], v.keys[j])
    ensures forall r :: r in lines ==>
      exists i :: 1 <= i < |v.keys| && v.keys[i] == r.team && v.guesses[i] == r.lineAdj - 8.0
  {
    v := ConstructWith(lines, 1.5, Bound(-5.0, 5.0), x => x - 8.0, Bound(-15.0, 15.0));
  }

  /** construct_vars_elo: HFA with guess 37.5 within (0, 70), then each team
      with guess (line_adj - 8) / 7 * 200 + 1505 within (-1100, 1800). */
  method ConstructVarsElo(lines: seq<LineRow>) returns (v: OptiVars)
    ensures |v.guesses| == |v.keys| == |v.bounds| == 1 + |lines|
    ensures v.keys[0] == "HFA" && v.guesses[0] == 37.5 && v.bounds[0] == Bound(0.0, 70.0)
    ensures forall i :: 1 <= i < |v.bounds| ==> v.bounds[i] == Bound(-1100.0, 1800.0)
    ensures forall i, j :: 1 <= i < j < |v.keys| ==> StringLe(v.keys[i], v.keys[j])
    ensures forall r :: r in lines ==>
      exists i :: 1 <= i < |v.keys| && v.keys[i] == r.team && v.guesses[i] == (r.lineAdj - 8.0) / 7.0 * 200.0 + 1505.0
  {
    v := ConstructWith(lines, 37.5, Bound(0.0, 70.0), x => (x - 8.0) / 7.0 * 200.0 + 1505.0, Bound(-1100.0, 1800.0));
  }

  /** A team at a win total of 8 starts from a rating of 0 points, or 1505
      in rating units. */
  lemma EightWinsIsAverage()
    ensures (8.0 - 8.0) / 7.0 * 200.0 + 1505.0 == 1505.0
  {
  }

  // -------------------------------------------------------------------
  // apply_wins / apply_wins_elo

  /** The value the `val_dict` loop leaves for `key`: the one at the last
      position holding that key, `None` when it never occurs. */
  function LastValue(x: seq<real>, keys: seq<string>, key: string): (r: Option<real>)
    requires |x| <= |keys|
    ensures r.None? <==> forall i :: 0 <= i < |x| ==> keys[i] != key
    ensures r.Some? ==> exists i :: 0 <= i < |x| && keys[i] == key && x[i] == r.value
                                  && forall j :: i < j < |x| ==> keys[j] != key
  {
    if |x| == 0 then None
    else if keys[|x| - 1] == key then Some(x[|x| - 1])
    else LastValue(x[..|x| - 1], keys, key)
  }

  /** `.map(val_dict)` for one key: NaN when the key is missing. */
  function Get(d: map<string, real>, k: string): (r: Option<real>)
    ensures r.Some? <==> k in d
    ensures r.Some? ==> r.value == d[k]
  {
    if k in d then Some(d[k]) else None
  }

  /** The `val_dict` loop: `val_dict[var_keys[i]] = x[i]` for every i, an
      IndexError when there are fewer names than values. */
  method ValDict(x: seq<real>, keys: seq<string>) returns (r: Result<map<string, real>, Error>)
    ensures r.Err? <==> |keys| < |x|
    ensures r.Ok? ==> forall k :: Get(r.value, k) == LastValue(x, keys, k)
  {
    var d: map<string, real> := map[];
    for i := 0 to |x|
      invariant i <= |keys|
      invariant forall k :: Get(d, k) == LastValue(x[..i], keys, k)
    {
      if i >= |keys| {
        return Err(KeyMissing("var_keys index"));
      }
      assert x[..i + 1][..i] == x[..i];
      d := d[keys[i] := x[i]];
    }
    assert x[..|x|] == x;
    return Ok(d);
  }

  /** One scheduled game. */
  datatype Matchup = Matchup(homeTeam: string, awayTeam: string)

  /** A game with the ratings mapped in (NaN for a team without one), the
      expected margin or rating difference, and both win probabilities. */
  datatype Applied = Applied(game: Matchup, hfa: real, homeRating: Option<real>, awayRating: Option<real>,
                             margin: Option<real>, homeWin: Option<real>, awayWin: Option<real>)

  /** How a margin becomes a home win probability: spread_to_prob for
      point ratings, `1 / (10 ** (-d / 400) + 1)` for rating points. */
  datatype Scale = Points | EloPoints

  function WinProb(m: Math, scale: Scale, margin: real): (r: real)
    ensures 0.0 < r < 1.0
    ensures scale == Points ==> r == Odds.SpreadToProbElo(m, margin)
    ensures scale == EloPoints ==> ST.EloToProb(m, margin, 400.0) == Ok(r)
  {
    match scale
    case Points => Odds.SpreadToProbElo(m, margin)
    case EloPoints =>
      var a := m.pow10(-margin / 400.0);
      assert a + 1.0 > 1.0;
      1.0 / (a + 1.0)
  }

  /** One row of apply_wins, given the ratings `.map(val_dict)` found for
      its teams: home rating + hfa - away rating, its win probability, and
      the away side's complement; NaN throughout when a rating is missing. */
  function ApplyGame(m: Math, scale: Scale, hfa: real, g: Matchup, home: Option<real>, away: Option<real>): (r: Applied)
    ensures r.game == g && r.hfa == hfa && r.homeRating == home && r.awayRating == away
    ensures r.margin.Some? <==> home.Some? && away.Some?
    ensures r.margin.Some? ==> r.margin.value == home.value + hfa - away.value
    ensures r.homeWin.Some? <==> r.margin.Some?
    ensures r.awayWin.Some? <==> r.margin.Some?
    ensures r.homeWin.Some? ==> r.homeWin.value == WinProb(m, scale, r.margin.value)
                                && r.homeWin.value + r.awayWin.value == 1.0
                                && 0.0 < r.awayWin.value < 1.0
  {
    if home.Some? && away.Some? then
      var margin := home.value + hfa - away.value;
      var p := WinProb(m, scale, margin);
      Applied(g, hfa, home, away, Some(margin), Some(p), Some(1.0 - p))
    else Applied(g, hfa, home, away, None, None, None)
  }

  /** apply_wins (Points) and apply_wins_elo (EloPoints): the `val_dict`
      loop, then `hfa = x[0]` (an IndexError for an empty vector) and the
      per-game columns, each team rated by the last value the loop stored
      under its name. */
  method ApplyWins(m: Math, scale: Scale, x: seq<real>, keys: seq<string>, games: seq<Matchup>)
    returns (r: Result<seq<Applied>, Error>)
    ensures r.Err? <==> |keys| < |x| || |x| == 0
    ensures r.Ok? ==> |r.value| == |games|
    ensures r.Ok? ==> forall i :: 0 <= i < |games| ==>
      r.value[i] == ApplyGame(m, scale, x[0], games[i],
                              LastValue(x, keys, games[i].homeTeam), LastValue(x, keys, games[i].awayTeam))
  {
    var d := ValDict(x, keys);
    if d.Err? {
      return Err(d.error);
    }
    if |x| == 0 {
      return Err(KeyMissing("x[0]"));
    }
    var rows := ApplyRatings(m, scale, x[0], d.value, games);
    r := Ok(rows);
    forall i | 0 <= i < |games|
      ensures rows[i] == ApplyGame(m, scale, x[0], games[i],
                                      LastValue(x, keys, games[i].homeTeam), LastValue(x, keys, games[i].awayTeam))
    {
      assert Get(d.value, games[i].homeTeam) == LastValue(x, keys, games[i].homeTeam);
      assert Get(d.value, games[i].awayTeam) == LastValue(x, keys, games[i].awayTeam);
    }
  }

  /** The vectorised columns of apply_wins, row by row. */
  method ApplyRatings(m: Math, scale: Scale, hfa: real, ratings: map<string, real>, games: seq<Matchup>)
    returns (applied: seq<Applied>)
    ensures |applied| == |games|
    ensures forall i :: 0 <= i < |games| ==>
      applied[i] == ApplyGame(m, scale, hfa, games[i], Get(ratings, games[i].homeTeam), Get(ratings, games[i].awayTeam))
  {
    applied := [];
    for i := 0 to |games|
      invariant |applied| == i
      invariant forall j :: 0 <= j < i ==>
        applied[j] == ApplyGame(m, scale, hfa, games[j], Get(ratings, games[j].homeTeam), Get(ratings, games[j].awayTeam))
    {
      var g := games[i];
      applied := applied + [ApplyGame(m, scale, hfa, g, Get(ratings, g.homeTeam), Get(ratings, g.awayTeam))];
    }
  }

  // -------------------------------------------------------------------
  // score_opti / score_opti_elo

  /** Every team of the flattened frame, once, in order of appearance. */
  function TeamsOf(games: seq<Applied>): (r: seq<string>)
    ensures Distinct(r)
    ensures forall t :: t in r <==> exists i :: 0 <= i < |games| && (games[i].game.homeTeam == t || games[i].game.awayTeam == t)
  {
    if |games| == 0 then []
    else
      var init := TeamsOf(games[..|games| - 1]);
      var g := games[|games| - 1].game;
      assert forall i :: 0 <= i < |games| - 1 ==> games[..|games| - 1][i] == games[i];
      var withHome := if g.homeTeam in init then init else init + [g.homeTeam];
      assert Distinct(withHome);
      if g.awayTeam in withHome then withHome else withHome + [g.awayTeam]
  }

  /** The team's win probabilities, home rows first, then away rows, as in
      the concatenated frame. */
  function WinColumn(games: seq<Applied>, team: string): (r: GM.Column)
    ensures |r| == 2 * |games|
  {
    seq(|games|, i requires 0 <= i < |games| => if games[i].game.homeTeam == team then games[i].homeWin else None) +
    seq(|games|, i requires 0 <= i < |games| => if games[i].game.awayTeam == team then games[i].awayWin else None)
  }

  /** `groupby('team').agg(wins=('win', 'sum'))`: NaN wins are skipped. */
  function ExpectedWins(games: seq<Applied>, team: string): real {
    GM.SumNa(WinColumn(games, team))
  }

  /** The squared errors of the expected wins against line_adj, one per
      team, NaN for a team without a line. */
  function SquaredErrors(games: seq<Applied>, lineAdj: map<string, real>): (r: GM.Column)
    ensures |r| == |TeamsOf(games)|
    ensures forall i :: 0 <= i < |r| ==> r[i].Some? ==> r[i].value >= 0.0
    ensures forall i :: 0 <= i < |r| ==> r[i].Some? ==>
      TeamsOf(games)[i] in lineAdj && r[i].value == Sq(ExpectedWins(games, TeamsOf(games)[i]) - lineAdj[TeamsOf(games)[i]])
  {
    var teams := TeamsOf(games);
    var r := seq(|teams|, i requires 0 <= i < |teams| =>
      if teams[i] in lineAdj then Some(Sq(ExpectedWins(games, teams[i]) - lineAdj[teams[i]])) else None);
    assert forall i :: 0 <= i < |r| ==> r[i].Some? ==> r[i].value >= 0.0 by {
      forall i | 0 <= i < |r| && r[i].Some? ensures r[i].value >= 0.0 {
        SqFacts(ExpectedWins(games, teams[i]) - lineAdj[teams[i]]);
      }
    }
    r
  }

  /** score_opti and score_opti_elo (the same text): the square root of the
      mean squared error over the teams with a line; NaN when none has one. */
  function ScoreOpti(m: Math, games: seq<Applied>, lineAdj: map<string, real>): (r: Option<real>)
    ensures r.Some? <==> GM.MeanNa(SquaredErrors(games, lineAdj)).Some?
    ensures r.Some? ==> GM.MeanNa(SquaredErrors(games, lineAdj)).value >= 0.0
                        && r.value == m.sqrt(GM.MeanNa(SquaredErrors(games, lineAdj)).value)
  {
    var se := SquaredErrors(games, lineAdj);
    GM.MeanNaNonnegative(se);
    match GM.MeanNa(se)
    case None => None
    case Some(mse) => Some(m.sqrt(mse))
  }

  /** The RMSE is never negative, and it is zero when every team's expected
      wins equal its adjusted line. */
  lemma ScoreOptiBounds(m: Math, games: seq<Applied>, lineAdj: map<string, real>)
    requires ScoreOpti(m, games, lineAdj).Some?
    requires var mse := GM.MeanNa(SquaredErrors(games, lineAdj)).value;
             mse >= 0.0 ==> m.sqrt(mse) >= 0.0
    requires m.sqrt(0.0) == 0.0
    ensures ScoreOpti(m, games, lineAdj).value >= 0.0
    ensures (forall t :: t in TeamsOf(games) && t in lineAdj ==> ExpectedWins(games, t) == lineAdj[t])
            ==> ScoreOpti(m, games, lineAdj).value == 0.0
  {
    var se := SquaredErrors(games, lineAdj);
    if forall t :: t in TeamsOf(games) && t in lineAdj ==> ExpectedWins(games, t) == lineAdj[t] {
      SquaredErrorsVanish(games, lineAdj);
      SumNaZero(se);
      assert GM.MeanNa(se).value == 0.0;
    }
  }

  /** Exact expected wins leave no squared error. */
  lemma SquaredErrorsVanish(games: seq<Applied>, lineAdj: map<string, real>)
    requires forall t :: t in TeamsOf(games) && t in lineAdj ==> ExpectedWins(games, t) == lineAdj[t]
    ensures var se := SquaredErrors(games, lineAdj);
            forall i :: 0 <= i < |se| && se[i].Some? ==> se[i].value == 0.0
  {
    var se := SquaredErrors(games, lineAdj);
    var teams := TeamsOf(games);
    forall i | 0 <= i < |se| && se[i].Some? ensures se[i].value == 0.0 {
      SqFacts(ExpectedWins(games, teams[i]) - lineAdj[teams[i]]);
    }
  }

  /** Entries that are all zero sum to zero. */
  lemma {:induction false} SumNaZero(c: GM.Column)
    requires forall i :: 0 <= i < |c| && c[i].Some? ==> c[i].value == 0.0
    ensures GM.SumNa(c) == 0.0
  {
    if |c| > 0 {
      var init := c[..|c| - 1];
      assert forall i :: 0 <= i < |init| && init[i].Some? ==> init[i].value == 0.0 by {
        forall i | 0 <= i < |init| ensures init[i] == c[i] { }
      }
      SumNaZero(init);
    }
  }

  // -------------------------------------------------------------------
  // calc_sos

  /** The opponents' ratings a team faced, home rows first, then away rows,
      as in the concatenated frame. */
  function OpponentColumn(games: seq<Applied>, team: string): (r: GM.Column)
    ensures |r| == 2 * |games|
    ensures forall i :: 0 <= i < |r| && r[i].Some? ==>
      (i < |games| && games[i].game.homeTeam == team && r[i] == games[i].awayRating) ||
      (i >= |games| && games[i - |games|].game.awayTeam == team && r[i] == games[i - |games|].homeRating)
  {
    seq(|games|, i requires 0 <= i < |games| => if games[i].game.homeTeam == team then games[i].awayRating else None) +
    seq(|games|, i requires 0 <= i < |games| => if games[i].game.awayTeam == team then games[i].homeRating else None)
  }

  /** A team's strength of schedule. */
  datatype Sos = Sos(team: string, sos: Option<real>)

  /** calc_sos: over the games rated by apply_wins, each team's mean
      opponent rating (NaN ratings skipped; NaN when none is known). */
  function CalcSos(games: seq<Applied>): (r: seq<Sos>)
    ensures |r| == |TeamsOf(games)|
    ensures forall i :: 0 <= i < |r| ==>
      r[i].team == TeamsOf(games)[i] && r[i].sos == GM.MeanNa(OpponentColumn(games, r[i].team))
  {
    var teams := TeamsOf(games);
    seq(|teams|, i requires 0 <= i < |teams| => Sos(teams[i], GM.MeanNa(OpponentColumn(games, teams[i]))))
  }

  /** The strength of schedule lies between the weakest and the strongest
      opponent's rating. */
  lemma SosBetweenOpponents(games: seq<Applied>, team: string, lo: real, hi: real)
    requires forall i :: 0 <= i < |games| && games[i].game.homeTeam == team && games[i].awayRating.Some? ==>
      lo <= games[i].awayRating.value <= hi
    requires forall i :: 0 <= i < |games| && games[i].game.awayTeam == team && games[i].homeRating.Some? ==>
      lo <= games[i].homeRating.value <= hi
    ensures var s := GM.MeanNa(OpponentColumn(games, team)); s.Some? ==> lo <= s.value <= hi
  {
    var c := OpponentColumn(games, team);
    forall i | 0 <= i < |c| && c[i].Some? ensures lo <= c[i].value <= hi {
    }
    GM.MeanNaWithin(c, lo, hi);
  }
}
