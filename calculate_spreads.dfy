/** The weekly projection of models/calculate_spreads.py: which games are
    projected, the per-game modifiers and week-one reversion, the
    regression toward the closing market line, the cover probabilities of
    the projected line, and the upsert of last week's picks into the pick
    history. */
module Spreads {
  import opened Wrappers
  import opened Numerics
  import MR = MarketRegression
  import CP = CoverProbability
  import OR = OffseasonRegression
  import NR = NfeloRules
  import LN = LegacyNfelo

  // -------------------------------------------------------------------
  // get_current_week

  /** The columns of one scheduled game that the projection reads.  An
      unplayed game has no result; a missing QB adjustment is `None`. */
  datatype Game = Game(
    gameId: string, season: int, week: int, homeTeam: string, awayTeam: string,
    result: Option<real>, neutralField: int, divisionalGame: int,
    homeSurfaceAdvantage: real, homeTimeAdvantage: real,
    homeQbAdj: Option<real>, awayQbAdj: Option<real>,
    homeLineOpen: real, homeLineClose: real)

  datatype Kind = Regular | Post

  /** A selected game with its `type` column. */
  datatype Scheduled = Scheduled(game: Game, kind: Kind)

  /** The last regular-season week: 18 from 2021 on, 17 before. */
  function LastRegularWeek(season: int): int {
    if season > 2020 then 18 else 17
  }

  /** The `type` column: `post` after the last regular-season week. */
  function SeasonKind(season: int, week: int): (k: Kind)
    ensures k == Post <==> week > LastRegularWeek(season)
  {
    if season > 2020 then (if week > 18 then Post else Regular)
    else (if week > 17 then Post else Regular)
  }

  function SeasonOf(g: Game): int { g.season }
  function WeekOf(g: Game): int { g.week }

  predicate Unplayed(g: Game) { g.result.None? }

  /** The least `key` over the unplayed games (pandas `.min()` over the
      rows whose result is NaN); `None` when every game has a result. */
  function MinUnplayed(games: seq<Game>, key: Game -> int): (r: Option<int>)
    ensures r.None? <==> forall g :: g in games ==> !Unplayed(g)
    ensures r.Some? ==> exists g :: g in games && Unplayed(g) && key(g) == r.value
    ensures r.Some? ==> forall g :: g in games && Unplayed(g) ==> r.value <= key(g)
  {
    if |games| == 0 then None
    else
      var rest := MinUnplayed(games[1..], key);
      assert forall g :: g in games ==> g == games[0] || g in games[1..];
      if !Unplayed(games[0]) then rest
      else if rest.None? || key(games[0]) <= rest.value then Some(key(games[0]))
      else rest
  }

  /** Every game of one season and week, in order, typed. */
  function Select(games: seq<Game>, season: int, week: int): (r: seq<Scheduled>)
    ensures forall x :: x in r ==>
      x.game in games && x.game.season == season && x.game.week == week && x.kind == SeasonKind(season, week)
    ensures forall g :: g in games && g.season == season && g.week == week ==>
      Scheduled(g, SeasonKind(season, week)) in r
  {
    if |games| == 0 then []
    else
      var rest := Select(games[1..], season, week);
      assert forall g :: g in games ==> g == games[0] || g in games[1..];
      if games[0].season == season && games[0].week == week
      then [Scheduled(games[0], SeasonKind(season, week))] + rest
      else rest
  }

  /** get_current_week as written: the least season and the least week are
      taken separately over the unplayed games, then every game of that
      season and week is kept. */
  function CurrentWeek(games: seq<Game>): seq<Scheduled> {
    var s := MinUnplayed(games, SeasonOf);
    var w := MinUnplayed(games, WeekOf);
    if s.None? || w.None? then [] else Select(games, s.value, w.value)
  }

  /** With nothing unplayed nothing is selected; otherwise every selected
      game is in the least unplayed season and the least unplayed week,
      and every game there is selected. */
  lemma CurrentWeekSelects(games: seq<Game>)
    ensures (forall g :: g in games ==> !Unplayed(g)) ==> CurrentWeek(games) == []
    ensures forall x, g :: x in CurrentWeek(games) && g in games && Unplayed(g) ==>
      x.game.season <= g.season && x.game.week <= g.week
    ensures forall x :: x in CurrentWeek(games) ==> x.game in games && x.kind == SeasonKind(x.game.season, x.game.week)
    ensures forall g :: (g in games &&
      MinUnplayed(games, SeasonOf) == Some(g.season) && MinUnplayed(games, WeekOf) == Some(g.week)) ==>
      Scheduled(g, SeasonKind(g.season, g.week)) in CurrentWeek(games)
  {
    var s := MinUnplayed(games, SeasonOf);
    var w := MinUnplayed(games, WeekOf);
    if s.Some? && w.Some? {
      assert forall g :: g in games && Unplayed(g) ==> s.value <= SeasonOf(g) && w.value <= WeekOf(g);
    }
  }

  /** The separate minima can select a week that is already over: with the
      last regular week of one season and week 1 of the next both
      unplayed, the played games of week 1 of the earlier season are
      projected and no unplayed game is. */
  lemma CurrentWeekCanSelectPlayedWeek(played: Game, late: Game, next: Game)
    requires played.season == late.season && next.season == late.season + 1
    requires played.week == 1 && late.week == LastRegularWeek(late.season) && next.week == 1
    requires played.result.Some? && late.result.None? && next.result.None?
    ensures CurrentWeek([played, late, next]) == [Scheduled(played, Regular)]
    ensures !Unplayed(played)
  {
    var games := [played, late, next];
    assert games[1..] == [late, next];
    assert [late, next][1..] == [next];
    assert [next][1..] == [];
    assert MinUnplayed([next], SeasonOf) == Some(next.season);
    assert MinUnplayed([late, next], SeasonOf) == Some(late.season);
    assert MinUnplayed(games, SeasonOf) == Some(late.season);
    assert MinUnplayed([next], WeekOf) == Some(1);
    assert MinUnplayed([late, next], WeekOf) == Some(1);
    assert MinUnplayed(games, WeekOf) == Some(1);
    assert Select([next], late.season, 1) == [];
    assert Select([late, next], late.season, 1) == [];
    assert Select(games, late.season, 1) == [Scheduled(played, SeasonKind(late.season, 1))] + Select([late, next], late.season, 1);
  }

  /** The games of one season. */
  function InSeason(games: seq<Game>, season: int): (r: seq<Game>)
    ensures forall g :: g in r <==> g in games && g.season == season
  {
    if |games| == 0 then []
    else
      assert forall g :: g in games ==> g == games[0] || g in games[1..];
      (if games[0].season == season then [games[0]] else []) + InSeason(games[1..], season)
  }

  /** The week selection as evidently intended: the least unplayed season,
      then the least unplayed week within that season. */
  function CurrentWeekIntended(games: seq<Game>): seq<Scheduled> {
    var s := MinUnplayed(games, SeasonOf);
    if s.None? then []
    else
      var w := MinUnplayed(InSeason(games, s.value), WeekOf);
      if w.None? then [] else Select(games, s.value, w.value)
  }

  /** The intended selection always projects an unplayed game when there is
      one, and nothing it selects comes after any unplayed game. */
  lemma CurrentWeekIntendedIsNextWeek(games: seq<Game>)
    ensures (exists g :: g in games && Unplayed(g)) ==>
      exists x :: x in CurrentWeekIntended(games) && Unplayed(x.game)
    ensures forall x, g :: x in CurrentWeekIntended(games) && g in games && Unplayed(g) ==>
      x.game.season < g.season || (x.game.season == g.season && x.game.week <= g.week)
  {
    var s := MinUnplayed(games, SeasonOf);
    if s.Some? {
      var season := InSeason(games, s.value);
      var w := MinUnplayed(season, WeekOf);
      var g0 :| g0 in games && Unplayed(g0) && SeasonOf(g0) == s.value;
      assert g0 in season;
      assert w.Some?;
      var g1 :| g1 in season && Unplayed(g1) && WeekOf(g1) == w.value;
      assert Scheduled(g1, SeasonKind(s.value, w.value)) in CurrentWeekIntended(games);
      forall x, g | x in CurrentWeekIntended(games) && g in games && Unplayed(g)
        ensures x.game.season < g.season || (x.game.season == g.season && x.game.week <= g.week)
      {
        assert s.value <= SeasonOf(g);
        if g.season == s.value {
          assert g in season;
        }
      }
    }
  }

  // -------------------------------------------------------------------
  // add_lines.add_info

  /** The configuration values add_info reads. */
  datatype SpreadConfig = SpreadConfig(
    z: real, reversion: real, dvoaWeight: real, qbWeight: real, playoffBoost: real,
    hfaDiv: real, hfaNonDiv: real, homeByeWeek: real, awayByeWeek: real,
    difSurface: real, timeAdvantage: real, regression: MR.Config)

  /** Values for which add_info divides by nothing that is zero. */
  predicate ValidConfig(c: SpreadConfig) {
    c.z != 0.0 && MR.ValidConfig(c.regression)
  }

  /** A team's row of its most recent game in the rating history. */
  datatype Recent = Recent(nfelo: real, week: int, modelSe: real, marketSe: real)

  /** A team's last row of one season. */
  datatype SeasonEnd = SeasonEnd(team: string, season: int, nfelo: real)

  /** The frames add_info reads: the most recent row per team, the rolling
      home-field history, the DVOA projections per (team, season), the
      season-end ratings and the lookup tables. */
  datatype Inputs = Inputs(
    recent: map<string, Recent>, rollingHfa: seq<Option<real>>,
    dvoa: map<(string, int), real>, seasonEnds: seq<SeasonEnd>, tables: LN.Tables)

  /** The last non-null rolling HFA; `None` (an IndexError) when there is none. */
  function LatestHfa(h: seq<Option<real>>): (r: Option<real>)
    ensures r.None? <==> forall i :: 0 <= i < |h| ==> h[i].None?
  {
    if |h| == 0 then None
    else if h[|h| - 1].Some? then h[|h| - 1]
    else
      assert forall i :: 0 <= i < |h| - 1 ==> h[..|h| - 1][i] == h[i];
      LatestHfa(h[..|h| - 1])
  }

  /** The value found is the one at the last present position. */
  lemma {:induction false} LatestHfaIsLast(h: seq<Option<real>>)
    requires LatestHfa(h).Some?
    ensures exists i :: 0 <= i < |h| && h[i] == LatestHfa(h) && forall j :: i < j < |h| ==> h[j].None?
  {
    if h[|h| - 1].None? {
      var init := h[..|h| - 1];
      LatestHfaIsLast(init);
      var i :| 0 <= i < |init| && init[i] == LatestHfa(init) && forall j :: i < j < |init| ==> init[j].None?;
      assert h[i] == LatestHfa(h);
      assert forall j :: i < j < |h| ==> h[j].None? by {
        forall j | i < j < |h| ensures h[j].None? {
          if j < |h| - 1 { assert h[j] == init[j]; }
        }
      }
    }
  }

  /** The empirical modifiers of one game. */
  datatype Mods = Mods(hfa: real, div: real, homeBye: real, awayBye: real, surface: real, time: real)

  /** hfa_mod is 1 on a neutral field and 25 times the latest rolling HFA
      otherwise; every other modifier is a configured rate times hfa_mod,
      and a bye counts only after week 1 and only when the team skipped a
      week. */
  function Modifiers(c: SpreadConfig, g: Game, currentHfa: real, homeLastWeek: int, awayLastWeek: int): Mods {
    var hfa := if g.neutralField == 1 then 1.0 else currentHfa * 25.0;
    var div := (if g.divisionalGame == 1 then c.hfaDiv else c.hfaNonDiv) * hfa;
    var homeBye := if g.week != 1 && g.week > homeLastWeek + 1 then hfa * c.homeByeWeek else 0.0;
    var awayBye := if g.week != 1 && g.week > awayLastWeek + 1 then hfa * c.awayByeWeek else 0.0;
    Mods(hfa, div, homeBye, awayBye,
         g.homeSurfaceAdvantage * c.difSurface * hfa,
         g.homeTimeAdvantage * c.timeAdvantage * hfa)
  }

  /** The sum of the modifiers; both byes are added. */
  function Total(m: Mods): real {
    m.hfa + m.homeBye + m.awayBye + m.surface + m.time + m.div
  }

  /** The configured rates behind each modifier, summed, so that the total
      is hfa_mod times this. */
  function Rates(c: SpreadConfig, g: Game, homeLastWeek: int, awayLastWeek: int): real {
    1.0 + (if g.divisionalGame == 1 then c.hfaDiv else c.hfaNonDiv)
    + (if g.week != 1 && g.week > homeLastWeek + 1 then c.homeByeWeek else 0.0)
    + (if g.week != 1 && g.week > awayLastWeek + 1 then c.awayByeWeek else 0.0)
    + g.homeSurfaceAdvantage * c.difSurface + g.homeTimeAdvantage * c.timeAdvantage
  }

  /** Every modifier scales hfa_mod: the total is hfa_mod times the rates.
      On a neutral field hfa_mod is 1 whatever the league's HFA, so a
      neutral game keeps the configured rates as an edge; otherwise a
      league HFA of 0 cancels every modifier. */
  lemma ModifiersScaleHfa(c: SpreadConfig, g: Game, currentHfa: real, homeLastWeek: int, awayLastWeek: int)
    ensures var m := Modifiers(c, g, currentHfa, homeLastWeek, awayLastWeek);
            Total(m) == m.hfa * Rates(c, g, homeLastWeek, awayLastWeek)
    ensures g.neutralField == 1 ==> Modifiers(c, g, currentHfa, homeLastWeek, awayLastWeek).hfa == 1.0
    ensures g.neutralField != 1 ==> Modifiers(c, g, currentHfa, homeLastWeek, awayLastWeek).hfa == 25.0 * currentHfa
    ensures g.neutralField != 1 && currentHfa == 0.0 ==> Total(Modifiers(c, g, currentHfa, homeLastWeek, awayLastWeek)) == 0.0
  {
    var m := Modifiers(c, g, currentHfa, homeLastWeek, awayLastWeek);
    var h := m.hfa;
    var dr := if g.divisionalGame == 1 then c.hfaDiv else c.hfaNonDiv;
    var hb := if g.week != 1 && g.week > homeLastWeek + 1 then c.homeByeWeek else 0.0;
    var ab := if g.week != 1 && g.week > awayLastWeek + 1 then c.awayByeWeek else 0.0;
    assert m.homeBye == h * hb;
    assert m.awayBye == h * ab;
    assert m.surface == h * (g.homeSurfaceAdvantage * c.difSurface);
    assert m.time == h * (g.homeTimeAdvantage * c.timeAdvantage);
    assert Total(m) == h * (1.0 + dr + hb + ab + g.homeSurfaceAdvantage * c.difSurface + g.homeTimeAdvantage * c.timeAdvantage);
  }

  /** A bye modifier is nonzero only when the game is after week 1 and the
      team's last game was more than a week earlier; in that case it is the
      configured bye rate times hfa_mod. */
  lemma ByeRule(c: SpreadConfig, g: Game, currentHfa: real, homeLastWeek: int, awayLastWeek: int)
    ensures var m := Modifiers(c, g, currentHfa, homeLastWeek, awayLastWeek);
            (m.homeBye != 0.0 ==> g.week != 1 && g.week > homeLastWeek + 1) &&
            (m.awayBye != 0.0 ==> g.week != 1 && g.week > awayLastWeek + 1) &&
            (g.week != 1 && g.week > homeLastWeek + 1 ==> m.homeBye == m.hfa * c.homeByeWeek) &&
            (g.week != 1 && g.week > awayLastWeek + 1 ==> m.awayBye == m.hfa * c.awayByeWeek)
  {
  }

  /** The ratings of last season's final rows. */
  function SeasonRatings(ends: seq<SeasonEnd>, season: int): (r: seq<real>)
    ensures |r| == 0 <==> forall e :: e in ends ==> e.season != season
  {
    if |ends| == 0 then []
    else
      assert forall e :: e in ends ==> e == ends[0] || e in ends[1..];
      (if ends[0].season == season then [ends[0].nfelo] else []) + SeasonRatings(ends[1..], season)
  }

  /** The centre of the week-one reversion: the median of last season's
      final ratings, or 1505 when there are none. */
  function LastSeasonMedian(ends: seq<SeasonEnd>, season: int): (r: real)
    ensures (forall e :: e in ends ==> e.season != season - 1) ==> r == OR.MeanElo
    ensures (exists e :: e in ends && e.season == season - 1) ==> Median(SeasonRatings(ends, season - 1)) == Some(r)
  {
    match Median(SeasonRatings(ends, season - 1))
    case None => OR.MeanElo
    case Some(med) => med
  }

  /** The week-one rating: mean reversion around last season's median,
      blended with the DVOA projection. */
  function WeekOneRating(c: SpreadConfig, median: real, elo: real, projDvoa: real): real {
    ((OR.MeanElo * c.reversion) + (OR.MeanElo + (elo - median)) * (1.0 - c.reversion)) * (1.0 - c.dvoaWeight)
    + c.dvoaWeight * (OR.MeanElo + 484.0 * projDvoa)
  }

  /** With a DVOA weight in [0, 1] the week-one rating is offseason_regression
      with that weight and no win-total projection. */
  lemma WeekOneRatingIsOffseasonRegression(c: SpreadConfig, median: real, elo: real, projDvoa: real)
    requires 0.0 <= c.dvoaWeight <= 1.0
    ensures WeekOneRating(c, median, elo, projDvoa)
         == OR.Regress(median, elo, Some(projDvoa), None, c.reversion, c.dvoaWeight, 0.0)
  {
    var w := OR.NormalizeWeights(c.dvoaWeight, 0.0);
    assert w.dvoa == c.dvoaWeight && w.wt == 0.0;
    assert w.reverted == 1.0 - c.dvoaWeight;
    var reverted := OR.MeanReverted(median, elo, c.reversion);
    assert reverted == (OR.MeanElo * c.reversion) + (OR.MeanElo + (elo - median)) * (1.0 - c.reversion);
  }

  /** The ratings, modifiers and QB values of one game, and its difference
      before regression. */
  datatype Rated = Rated(homeElo: real, awayElo: real, mods: Mods, homeQb: real, awayQb: real, difPreReg: real)

  /** The base difference plus the modifiers and the weighted QB edge,
      boosted in the postseason. */
  function PreRegDif(c: SpreadConfig, kind: Kind, homeElo: real, awayElo: real, m: Mods, homeQb: real, awayQb: real): (r: real)
  {
    var d := homeElo - awayElo + Total(m) + c.qbWeight * (homeQb - awayQb);
    if kind == Post then d * (1.0 + c.playoffBoost) else d
  }

  /** The playoff premium scales the whole regular-season difference; with
      no modifiers and equal QB values only the ratings differ. */
  lemma PreRegDifPlayoffBoost(c: SpreadConfig, homeElo: real, awayElo: real, m: Mods, homeQb: real, awayQb: real)
    ensures PreRegDif(c, Post, homeElo, awayElo, m, homeQb, awayQb)
         == PreRegDif(c, Regular, homeElo, awayElo, m, homeQb, awayQb) * (1.0 + c.playoffBoost)
    ensures Total(m) == 0.0 && homeQb == awayQb ==>
              PreRegDif(c, Regular, homeElo, awayElo, m, homeQb, awayQb) == homeElo - awayElo
  {
  }

  /** The lookups, modifiers and ratings of add_info, in the source's order:
      each team's most recent row, the latest rolling HFA, each team's DVOA
      projection for the season. */
  function Rate(c: SpreadConfig, inp: Inputs, s: Scheduled): (r: Result<Rated, Error>)
    ensures r.Err? <==>
      s.game.homeTeam !in inp.recent || s.game.awayTeam !in inp.recent
      || LatestHfa(inp.rollingHfa).None?
      || (s.game.homeTeam, s.game.season) !in inp.dvoa || (s.game.awayTeam, s.game.season) !in inp.dvoa
    ensures r.Ok? ==> r.value.homeQb == s.game.homeQbAdj.GetOr(0.0) && r.value.awayQb == s.game.awayQbAdj.GetOr(0.0)
    ensures r.Ok? && s.game.week != 1 ==>
      r.value.homeElo == inp.recent[s.game.homeTeam].nfelo && r.value.awayElo == inp.recent[s.game.awayTeam].nfelo
    ensures r.Ok? && s.game.week == 1 ==>
      var med := LastSeasonMedian(inp.seasonEnds, s.game.season);
      r.value.homeElo == WeekOneRating(c, med, inp.recent[s.game.homeTeam].nfelo, inp.dvoa[(s.game.homeTeam, s.game.season)]) &&
      r.value.awayElo == WeekOneRating(c, med, inp.recent[s.game.awayTeam].nfelo, inp.dvoa[(s.game.awayTeam, s.game.season)])
    ensures r.Ok? ==>
      r.value.mods == Modifiers(c, s.game, LatestHfa(inp.rollingHfa).value,
                                inp.recent[s.game.homeTeam].week, inp.recent[s.game.awayTeam].week)
    ensures r.Ok? ==>
      r.value.difPreReg == PreRegDif(c, s.kind, r.value.homeElo, r.value.awayElo, r.value.mods, r.value.homeQb, r.value.awayQb)
  {
    var g := s.game;
    if g.homeTeam !in inp.recent then Err(KeyMissing(g.homeTeam))
    else if g.awayTeam !in inp.recent then Err(KeyMissing(g.awayTeam))
    else
      var hfa := LatestHfa(inp.rollingHfa);
      if hfa.None? then Err(KeyMissing("rolling_hfa"))
      else
        var home := inp.recent[g.homeTeam];
        var away := inp.recent[g.awayTeam];
        var mods := Modifiers(c, g, hfa.value, home.week, away.week);
        if (g.homeTeam, g.season) !in inp.dvoa then Err(KeyMissing(g.homeTeam))
        else if (g.awayTeam, g.season) !in inp.dvoa then Err(KeyMissing(g.awayTeam))
        else
          var med := LastSeasonMedian(inp.seasonEnds, g.season);
          var homeElo := if g.week == 1 then WeekOneRating(c, med, home.nfelo, inp.dvoa[(g.homeTeam, g.season)]) else home.nfelo;
          var awayElo := if g.week == 1 then WeekOneRating(c, med, away.nfelo, inp.dvoa[(g.awayTeam, g.season)]) else away.nfelo;
          var homeQb := g.homeQbAdj.GetOr(0.0);
          var awayQb := g.awayQbAdj.GetOr(0.0);
          Ok(Rated(homeElo, awayElo, mods, homeQb, awayQb, PreRegDif(c, s.kind, homeElo, awayElo, mods, homeQb, awayQb)))
  }

  /** One projected game: the row add_info returns. */
  datatype Projected = Projected(
    game: Scheduled, rated: Rated, linePreRegression: real, factor: real,
    regressedDif: real, probability: real, line: real, lineRounded: real, spreadDelta: real,
    homeDif: real, netQb: real, netBye: real, netHfa: real)

  /** The recent rows' squared errors of the two teams, zero for a team
      without a row (add_info has raised before it reads them). */
  function SeOf(inp: Inputs, g: Game): MR.SeContext {
    var home := if g.homeTeam in inp.recent then inp.recent[g.homeTeam] else Recent(0.0, 0, 0.0, 0.0);
    var away := if g.awayTeam in inp.recent then inp.recent[g.awayTeam] else Recent(0.0, 0, 0.0, 0.0);
    MR.SeContext(home.modelSe, home.marketSe, away.modelSe, away.marketSe)
  }

  /** The regression of one game: the line before regression, the factor,
      the closing market's difference and the blended difference. */
  datatype Blended = Blended(linePre: real, factor: real, marketDif: real, regressed: real)

  /** The pre-regression line, the legacy regression factor, the closing
      market's difference (a KeyError for a closing line missing from the
      translation table, a ZeroDivisionError for a market probability of
      0, a ValueError from `math.log10` for one of 1 or more or below 0)
      and the blend toward it. */
  function Toward(m: Math, c: SpreadConfig, t: LN.Tables, inp: Inputs, s: Scheduled, rated: Rated): (r: Result<Blended, Error>)
    requires ValidConfig(c)
    ensures r.Ok? <==> s.game.homeLineClose in t.spreadTranslation && 0.0 < t.spreadTranslation[s.game.homeLineClose] < 1.0
    ensures r.Ok? ==> r.value.linePre == LN.UnroundedLine(m, LN.WinProb(m, rated.difPreReg, c.z))
    ensures r.Ok? ==> r.value.factor == LN.LegacyFactor(m, c.regression, r.value.linePre,
                                                        s.game.homeLineOpen, s.game.homeLineClose, SeOf(inp, s.game))
    ensures r.Ok? ==> LN.MarketEloDif(m, c.z, t.spreadTranslation[s.game.homeLineClose]) == Ok(r.value.marketDif)
    ensures r.Ok? ==> r.value.regressed == MR.Blend(rated.difPreReg, r.value.marketDif, r.value.factor)
  {
    var g := s.game;
    var linePre := LN.UnroundedLine(m, LN.WinProb(m, rated.difPreReg, c.z));
    var f := LN.LegacyFactor(m, c.regression, linePre, g.homeLineOpen, g.homeLineClose, SeOf(inp, g));
    if g.homeLineClose !in t.spreadTranslation then Err(KeyMissing("spread translation"))
    else
      var mdif := LN.MarketEloDif(m, c.z, t.spreadTranslation[g.homeLineClose]);
      if mdif.Err? then Err(mdif.error)
      else Ok(Blended(linePre, f, mdif.value, MR.Blend(rated.difPreReg, mdif.value, f)))
  }

  /** The last step of add_info: the final probability from the regressed
      difference, the unrounded line, the line rounded through the spread
      multiplier table (a KeyError when the probability's key is missing)
      and its distance from the closing line. */
  function Finish(m: Math, c: SpreadConfig, t: LN.Tables, s: Scheduled, rated: Rated, b: Blended): (r: Result<Projected, Error>)
    requires ValidConfig(c)
    ensures r.Ok? <==> LN.MultLine(t, LN.WinProb(m, b.regressed, c.z)).Ok?
    ensures r.Ok? ==> r.value.linePreRegression == b.linePre && r.value.factor == b.factor && r.value.regressedDif == b.regressed
    ensures r.Ok? ==> r.value.probability == LN.WinProb(m, b.regressed, c.z)
    ensures r.Ok? ==> LN.MultLine(t, r.value.probability) == Ok(r.value.lineRounded)
    ensures r.Ok? ==> r.value.line == LN.UnroundedLine(m, r.value.probability)
    ensures r.Ok? ==> r.value.spreadDelta == Abs(r.value.lineRounded - s.game.homeLineClose)
    ensures r.Ok? ==> r.value.game == s && r.value.rated == rated
  {
    var p := LN.WinProb(m, b.regressed, c.z);
    var rounded := LN.MultLine(t, p);
    if rounded.Err? then Err(rounded.error)
    else
      Ok(Projected(s, rated, b.linePre, b.factor, b.regressed, p, LN.UnroundedLine(m, p), rounded.value,
                   Abs(rounded.value - s.game.homeLineClose),
                   rated.homeElo - rated.awayElo, c.qbWeight * (rated.homeQb - rated.awayQb),
                   rated.mods.homeBye + rated.mods.awayBye,
                   rated.mods.hfa + rated.mods.surface + rated.mods.time + rated.mods.div))
  }

  /** add_info: rate the game, regress it toward the market, then derive
      the lines; the first step that raises decides the error. */
  function AddInfo(m: Math, c: SpreadConfig, inp: Inputs, s: Scheduled): (r: Result<Projected, Error>)
    requires ValidConfig(c)
    ensures Rate(c, inp, s).Err? ==> r == Err(Rate(c, inp, s).error)
    ensures Rate(c, inp, s).Ok? && Toward(m, c, inp.tables, inp, s, Rate(c, inp, s).value).Err? ==> r.Err?
    ensures Rate(c, inp, s).Ok? && Toward(m, c, inp.tables, inp, s, Rate(c, inp, s).value).Ok? ==>
      r == Finish(m, c, inp.tables, s, Rate(c, inp, s).value, Toward(m, c, inp.tables, inp, s, Rate(c, inp, s).value).value)
  {
    var rated := Rate(c, inp, s);
    if rated.Err? then Err(rated.error)
    else
      var b := Toward(m, c, inp.tables, inp, s, rated.value);
      if b.Err? then Err(b.error) else Finish(m, c, inp.tables, s, rated.value, b.value)
  }

  /** The regression factor is the legacy engine's, so it lies in
      [min_mr, 1] whenever min_mr <= 1; with min_mr >= 0 the regressed
      difference then lies between the model's and the closing market's. */
  lemma TowardStaysBetween(m: Math, c: SpreadConfig, t: LN.Tables, inp: Inputs, s: Scheduled, rated: Rated)
    requires ValidConfig(c)
    requires Toward(m, c, t, inp, s, rated).Ok?
    ensures var b := Toward(m, c, t, inp, s, rated).value;
            c.regression.minRegression <= 1.0 ==> c.regression.minRegression <= b.factor <= 1.0
    ensures var b := Toward(m, c, t, inp, s, rated).value;
            0.0 <= c.regression.minRegression <= 1.0 ==>
              Min(rated.difPreReg, b.marketDif) <= b.regressed <= Max(rated.difPreReg, b.marketDif)
  {
  }

  /** A projected game carries the legacy factor, a regressed difference
      between the model's and the closing market's, and a probability
      strictly between 0 and 1. */
  lemma AddInfoRegressesTowardMarket(m: Math, c: SpreadConfig, inp: Inputs, s: Scheduled)
    requires ValidConfig(c)
    requires AddInfo(m, c, inp, s).Ok?
    ensures var p := AddInfo(m, c, inp, s).value;
            p.factor == LN.LegacyFactor(m, c.regression, p.linePreRegression, s.game.homeLineOpen, s.game.homeLineClose, SeOf(inp, s.game))
    ensures var p := AddInfo(m, c, inp, s).value;
            c.regression.minRegression <= 1.0 ==> c.regression.minRegression <= p.factor <= 1.0
    ensures var p := AddInfo(m, c, inp, s).value;
            var mdif := LN.MarketEloDif(m, c.z, inp.tables.spreadTranslation[s.game.homeLineClose]).value;
            0.0 <= c.regression.minRegression <= 1.0 ==>
              Min(p.rated.difPreReg, mdif) <= p.regressedDif <= Max(p.rated.difPreReg, mdif)
    ensures 0.0 < AddInfo(m, c, inp, s).value.probability < 1.0
  {
    var rated := Rate(c, inp, s).value;
    var b := Toward(m, c, inp.tables, inp, s, rated);
    assert b.Ok?;
    TowardStaysBetween(m, c, inp.tables, inp, s, rated);
    var p := AddInfo(m, c, inp, s).value;
    assert p == Finish(m, c, inp.tables, s, rated, b.value).value;
    assert p.rated == rated && p.factor == b.value.factor && p.regressedDif == b.value.regressed;
  }

  /** add_lines: add_info applied to every selected game in order; the
      first game that raises stops the whole frame. */
  method AddLines(m: Math, c: SpreadConfig, inp: Inputs, games: seq<Scheduled>) returns (r: Result<seq<Projected>, Error>)
    requires ValidConfig(c)
    ensures r.Ok? <==> forall i :: 0 <= i < |games| ==> AddInfo(m, c, inp, games[i]).Ok?
    ensures r.Ok? ==> |r.value| == |games| && forall i :: 0 <= i < |games| ==> AddInfo(m, c, inp, games[i]) == Ok(r.value[i])
    ensures r.Err? ==> exists i :: 0 <= i < |games| && AddInfo(m, c, inp, games[i]) == Err(r.error)
                                && forall j :: 0 <= j < i ==> AddInfo(m, c, inp, games[j]).Ok?
  {
    r := ApplyRows(s => AddInfo(m, c, inp, s), games);
  }

  /** `DataFrame.apply` of a row function that may raise: the rows in
      order, stopping at the first error. */
  method ApplyRows(info: Scheduled -> Result<Projected, Error>, games: seq<Scheduled>) returns (r: Result<seq<Projected>, Error>)
    ensures r.Ok? <==> forall i :: 0 <= i < |games| ==> info(games[i]).Ok?
    ensures r.Ok? ==> |r.value| == |games| && forall i :: 0 <= i < |games| ==> info(games[i]) == Ok(r.value[i])
    ensures r.Err? ==> exists i :: 0 <= i < |games| && info(games[i]) == Err(r.error)
                                && forall j :: 0 <= j < i ==> info(games[j]).Ok?
  {
    var out: seq<Projected> := [];
    for i := 0 to |games|
      invariant |out| == i
      invariant forall j :: 0 <= j < i ==> info(games[j]) == Ok(out[j])
    {
      var row := info(games[i]);
      if row.Err? {
        return Err(row.error);
      }
      out := out + [row.value];
    }
    return Ok(out);
  }

  // -------------------------------------------------------------------
  // apply_probabilities

  /** apply_probs: the cover probabilities of the rounded projected line
      against the closing line, mirrored for the away side.  The
      favourite and underdog helpers have the same body, so the branch on
      the line's sign does not change the result. */
  function Probabilities(dist: seq<CP.DistRow>, p: Projected): (r: LN.SideProbs)
    ensures r.home == CP.CalcCoverProbs(dist, p.lineRounded, p.game.game.homeLineClose)
    ensures r.away.loss == r.home.cover && r.away.cover == r.home.loss && r.away.push == r.home.push
    ensures r.homeEv == NR.Ev(r.home.cover, r.home.loss) && r.awayEv == NR.Ev(r.away.cover, r.away.loss)
  {
    LN.CalcProbsIsCalcCoverProbs(dist, p.lineRounded, p.game.game.homeLineClose);
    LN.Sides(LN.CalcProbs(dist, p.lineRounded, p.game.game.homeLineClose))
  }

  /** With nonnegative table weights, home's three probabilities sum to the
      mass of the projected line's bucket, and at most one side shows a
      positive EV. */
  lemma ProbabilitiesPartition(dist: seq<CP.DistRow>, p: Projected)
    requires forall i :: 0 <= i < |dist| ==> dist[i].prob >= 0.0
    ensures var r := Probabilities(dist, p);
            r.home.loss >= 0.0 && r.home.push >= 0.0 && r.home.cover >= 0.0
    ensures !(Probabilities(dist, p).homeEv > 0.0 && Probabilities(dist, p).awayEv > 0.0)
  {
    CP.CoverProbsNonnegative(dist, p.lineRounded, p.game.game.homeLineClose);
    LN.AtMostOneSidePositive(CP.CalcCoverProbs(dist, p.lineRounded, p.game.game.homeLineClose));
  }

  /** apply_probabilities: apply_probs over every projected game in order. */
  method ApplyProbabilities(dist: seq<CP.DistRow>, games: seq<Projected>) returns (r: seq<LN.SideProbs>)
    ensures |r| == |games|
    ensures forall i :: 0 <= i < |games| ==> r[i] == Probabilities(dist, games[i])
  {
    r := [];
    for i := 0 to |games|
      invariant |r| == i
      invariant forall j :: 0 <= j < i ==> r[j] == Probabilities(dist, games[j])
    {
      r := r + [Probabilities(dist, games[i])];
    }
  }

  // -------------------------------------------------------------------
  // save_previous_picks

  /** One saved pick: its game id, the model version stamped on it, and the
      rest of its CSV cells. */
  datatype Pick = Pick(gameId: string, nfeloVersion: string, cells: seq<string>)

  function Ids(picks: seq<Pick>): (r: seq<string>)
    ensures |r| == |picks| && forall i :: 0 <= i < |picks| ==> r[i] == picks[i].gameId
  {
    if |picks| == 0 then [] else [picks[0].gameId] + Ids(picks[1..])
  }

  /** The rows whose game id is not in `ids`, in order. */
  function Without(picks: seq<Pick>, ids: seq<string>): (r: seq<Pick>)
    ensures |r| <= |picks|
  {
    if |picks| == 0 then []
    else (if picks[0].gameId in ids then [] else [picks[0]]) + Without(picks[1..], ids)
  }

  /** A row survives exactly when it was there and its game is not listed. */
  lemma {:induction false} WithoutMembers(picks: seq<Pick>, ids: seq<string>, p: Pick)
    ensures p in Without(picks, ids) <==> p in picks && p.gameId !in ids
  {
    if |picks| > 0 {
      WithoutMembers(picks[1..], ids, p);
      assert p in picks <==> p == picks[0] || p in picks[1..];
    }
  }

  function Stamp(picks: seq<Pick>, version: string): (r: seq<Pick>)
    ensures |r| == |picks|
    ensures forall i :: 0 <= i < |r| ==> r[i] == picks[i].(nfeloVersion := version)
  {
    if |picks| == 0 then [] else [picks[0].(nfeloVersion := version)] + Stamp(picks[1..], version)
  }

  /** The history file save_previous_picks writes, or `None` when it
      writes nothing: last week's picks are stamped with the current
      version; without them nothing is written; without a history they
      become the history; otherwise the history loses the games they
      cover and they are appended. */
  function SavePreviousPicks(historic: Option<seq<Pick>>, last: Option<seq<Pick>>, version: string): (r: Option<seq<Pick>>)
    ensures last.None? <==> r.None?
    ensures last.Some? && historic.None? ==> r == Some(Stamp(last.value, version))
    ensures last.Some? && historic.Some? ==>
      r == Some(Without(historic.value, Ids(last.value)) + Stamp(last.value, version))
  {
    match last
    case None => None
    case Some(l) =>
      var stamped := Stamp(l, version);
      match historic
      case None => Some(stamped)
      case Some(h) => Some(Without(h, Ids(l)) + stamped)
  }

  lemma StampKeepsIds(picks: seq<Pick>, version: string)
    ensures Ids(Stamp(picks, version)) == Ids(picks)
  {
  }

  lemma IdsAppend(a: seq<Pick>, b: seq<Pick>)
    ensures Ids(a + b) == Ids(a) + Ids(b)
  {
    assert forall i :: 0 <= i < |a + b| ==> Ids(a + b)[i] == (Ids(a) + Ids(b))[i];
  }

  lemma IdIn(picks: seq<Pick>, p: Pick)
    requires p in picks
    ensures p.gameId in Ids(picks)
  {
    var i :| 0 <= i < |picks| && picks[i] == p;
    assert Ids(picks)[i] == p.gameId;
  }

  lemma DistinctCons(x: string, y: seq<string>)
    requires Distinct(y) && forall k :: 0 <= k < |y| ==> y[k] != x
    ensures Distinct([x] + y)
  {
    forall i, j | 0 <= i < j < |[x] + y|
      ensures ([x] + y)[i] != ([x] + y)[j]
    {
      assert ([x] + y)[j] == y[j - 1];
    }
  }

  /** Two id lists without repeats and without a common id join without
      repeats. */
  lemma DistinctConcat(x: seq<string>, y: seq<string>)
    requires Distinct(x) && Distinct(y)
    requires forall k :: 0 <= k < |x| ==> x[k] !in y
    ensures Distinct(x + y)
  {
    forall i, j | 0 <= i < j < |x + y|
      ensures (x + y)[i] != (x + y)[j]
    {
      if i < |x| && j >= |x| {
        assert (x + y)[j] == y[j - |x|];
      }
    }
  }

  /** Every new pick is kept; an old pick survives when its game is not
      among the new picks, and nothing else is written; and when the history and the new picks each
      hold one row per game, so does the result. */
  lemma UpsertKeepsOneRowPerGame(historic: seq<Pick>, last: seq<Pick>, version: string)
    requires Distinct(Ids(historic)) && Distinct(Ids(last))
    ensures var r := SavePreviousPicks(Some(historic), Some(last), version).value;
            Distinct(Ids(r)) &&
            (forall p :: p in Stamp(last, version) ==> p in r) &&
            (forall p :: p in historic && p.gameId !in Ids(last) ==> p in r) &&
            (forall p :: p in r ==> p in Stamp(last, version) || (p in historic && p.gameId !in Ids(last)))
  {
    var ids := Ids(last);
    var stamped := Stamp(last, version);
    StampKeepsIds(last, version);
    var kept := Without(historic, ids);
    WithoutDistinct(historic, ids);
    JoinDistinct(historic, kept, stamped, ids);
    forall p ensures p in kept <==> p in historic && p.gameId !in ids {
      WithoutMembers(historic, ids, p);
    }
  }

  /** The kept history and the new picks share no game, so their join has
      one row per game. */
  lemma JoinDistinct(historic: seq<Pick>, kept: seq<Pick>, stamped: seq<Pick>, ids: seq<string>)
    requires kept == Without(historic, ids) && Ids(stamped) == ids
    requires Distinct(Ids(kept)) && Distinct(ids)
    ensures Distinct(Ids(kept + stamped))
  {
    IdsAppend(kept, stamped);
    forall k | 0 <= k < |Ids(kept)|
      ensures Ids(kept)[k] !in ids
    {
      WithoutMembers(historic, ids, kept[k]);
    }
    DistinctConcat(Ids(kept), ids);
  }

  /** Dropping rows keeps game ids distinct. */
  lemma {:induction false} WithoutDistinct(picks: seq<Pick>, ids: seq<string>)
    requires Distinct(Ids(picks))
    ensures Distinct(Ids(Without(picks, ids)))
  {
    if |picks| > 0 {
      var tail := picks[1..];
      assert Ids(tail) == Ids(picks)[1..];
      WithoutDistinct(tail, ids);
      var rest := Without(tail, ids);
      if picks[0].gameId !in ids {
        FreshHead(picks, ids);
        DistinctCons(picks[0].gameId, Ids(rest));
        IdsAppend([picks[0]], rest);
        assert Without(picks, ids) == [picks[0]] + rest;
      } else {
        assert Without(picks, ids) == rest;
      }
    }
  }

  /** The first row's game appears nowhere in what survives of the rest. */
  lemma FreshHead(picks: seq<Pick>, ids: seq<string>)
    requires |picks| > 0 && Distinct(Ids(picks))
    ensures forall k :: 0 <= k < |Ids(Without(picks[1..], ids))| ==> Ids(Without(picks[1..], ids))[k] != picks[0].gameId
  {
    var tail := picks[1..];
    var rest := Without(tail, ids);
    forall k | 0 <= k < |Ids(rest)|
      ensures Ids(rest)[k] != picks[0].gameId
    {
      WithoutMembers(tail, ids, rest[k]);
      var i :| 0 <= i < |tail| && tail[i] == rest[k];
      assert Ids(picks)[i + 1] == rest[k].gameId;
    }
  }

  /** Saving the same picks twice writes the same history as saving them
      once. */
  lemma UpsertIdempotent(historic: seq<Pick>, last: seq<Pick>, version: string)
    ensures var once := SavePreviousPicks(Some(historic), Some(last), version).value;
            SavePreviousPicks(Some(once), Some(last), version) == Some(once)
  {
    var ids := Ids(last);
    var stamped := Stamp(last, version);
    StampKeepsIds(last, version);
    var kept := Without(historic, ids);
    var once := kept + stamped;
    assert SavePreviousPicks(Some(historic), Some(last), version).value == once;
    WithoutAppend(kept, stamped, ids);
    WithoutIdempotent(historic, ids);
    WithoutAll(stamped, ids);
    assert Without(once, ids) == kept;
  }

  lemma {:induction false} WithoutAppend(a: seq<Pick>, b: seq<Pick>, ids: seq<string>)
    ensures Without(a + b, ids) == Without(a, ids) + Without(b, ids)
  {
    if |a| > 0 {
      assert (a + b)[1..] == a[1..] + b;
      WithoutAppend(a[1..], b, ids);
    } else {
      assert a + b == b;
    }
  }

  lemma {:induction false} WithoutIdempotent(picks: seq<Pick>, ids: seq<string>)
    ensures Without(Without(picks, ids), ids) == Without(picks, ids)
  {
    if |picks| > 0 {
      WithoutIdempotent(picks[1..], ids);
      var head: seq<Pick> := if picks[0].gameId in ids then [] else [picks[0]];
      WithoutAppend(head, Without(picks[1..], ids), ids);
      if picks[0].gameId !in ids {
        assert [picks[0]][1..] == [];
      }
    }
  }

  /** Rows whose ids are exactly `ids` are all dropped. */
  lemma WithoutAll(picks: seq<Pick>, ids: seq<string>)
    requires Ids(picks) == ids
    ensures Without(picks, ids) == []
  {
    forall k | 0 <= k < |picks| ensures picks[k].gameId in ids { assert ids[k] == picks[k].gameId; }
    WithoutNone(picks, ids);
  }

  lemma {:induction false} WithoutNone(picks: seq<Pick>, ids: seq<string>)
    requires forall k :: 0 <= k < |picks| ==> picks[k].gameId in ids
    ensures Without(picks, ids) == []
  {
    if |picks| > 0 {
      WithoutNone(picks[1..], ids);
    }
  }
}
