/** The per-game rules of the rating engine (nfelo/Model/Nfelo.py), stated
    as functions of the engine's state.  The `Nfelo` class in module `Model`
    carries that state in fields and is proved to follow these rules. */
module NfeloRules {
  import opened Wrappers
  import opened Numerics
  import MR = MarketRegression
  import ES = EloShift
  import OR = OffseasonRegression
  import ST = SpreadTranslation
  import opened CoverProbability
  import opened Clv
  import Scoring

  /** The first season the engine rates. */
  const FirstSeason: int := 2009

  // -------------------------------------------------------------------
  // state

  /** A team's snapshot through its most recent game (one entry of
      `current_elos`).  `None` is numpy's NaN. */
  datatype TeamState = TeamState(
    team: string, season: int, week: int,
    gameId: Option<string>, opponent: Option<string>,
    startingNfelo: Option<real>, endingNfelo: real,
    startingNfeloAdj: real, endingNfeloAdj: real,
    startingMarketSe: real, endingMarketSe: real,
    startingModelSe: real, endingModelSe: real)

  /** The "week 0" snapshot every team starts from. */
  function FreshSnapshot(team: string, initialElo: real): (s: TeamState)
    ensures s.team == team && s.season == FirstSeason && s.week == 0
    ensures s.gameId.None? && s.opponent.None? && s.startingNfelo.None?
    ensures s.endingNfelo == initialElo
    ensures s.startingNfeloAdj == 0.0 && s.endingNfeloAdj == 0.0
    ensures s.startingMarketSe == 0.0 && s.endingMarketSe == 0.0
    ensures s.startingModelSe == 0.0 && s.endingModelSe == 0.0
  {
    TeamState(team, FirstSeason, 0, None, None, None, initialElo, 0.0, 0.0, 0.0, 0.0, 0.0, 0.0)
  }

  /** The table init_elos builds: one fresh snapshot per team. */
  function InitialElos(teams: seq<string>, initialElos: map<string, real>): (r: map<string, TeamState>)
    requires forall t :: t in teams ==> t in initialElos
    ensures forall t :: t in r <==> t in teams
    ensures forall t :: t in r ==> r[t] == FreshSnapshot(t, initialElos[t])
  {
    map t | t in teams :: FreshSnapshot(t, initialElos[t])
  }

  /** The first team without an initial rating, the key init_elos raises
      its KeyError on; none when every team has one. */
  function FirstMissing(teams: seq<string>, initialElos: map<string, real>): (r: Option<string>)
    ensures r.None? <==> forall t :: t in teams ==> t in initialElos
    ensures r.Some? ==> exists i :: 0 <= i < |teams| && teams[i] == r.value && r.value !in initialElos &&
                          forall j :: 0 <= j < i ==> teams[j] in initialElos
  {
    if |teams| == 0 then None
    else if teams[0] !in initialElos then Some(teams[0])
    else
      var rest := FirstMissing(teams[1..], initialElos);
      assert forall t :: t in teams[1..] ==> t in teams;
      if rest.Some? then
        assert exists i :: 0 <= i < |teams[1..]| && teams[1..][i] == rest.value &&
                 forall j :: 0 <= j < i ==> teams[1..][j] in initialElos;
        var i :| 0 <= i < |teams[1..]| && teams[1..][i] == rest.value &&
                 forall j :: 0 <= j < i ==> teams[1..][j] in initialElos;
        assert teams[i + 1] == rest.value;
        assert forall j :: 0 <= j < i + 1 ==> teams[j] in initialElos by {
          forall j | 0 <= j < i + 1 ensures teams[j] in initialElos {
            if j > 0 { assert teams[j] == teams[1..][j - 1]; }
          }
        }
        rest
      else
        assert forall t :: t in teams ==> t == teams[0] || t in teams[1..];
        None
  }

  /** A record appended to `reversion_records` at a season boundary. */
  datatype ReversionRecord = ReversionRecord(
    team: string, season: int, week: int,
    previousEndingElo: real, leagueElo: real, meanRevertedElo: real,
    dvoaElo: Option<real>, wtElo: Option<real>, newElo: real)

  /** The whole mutable state of the engine. */
  datatype EngineState = EngineState(
    currentElos: map<string, TeamState>,
    yearlyElos: map<int, seq<real>>,
    reversionRecords: seq<ReversionRecord>,
    eloRecords: seq<TeamState>)

  // -------------------------------------------------------------------
  // configuration

  /** The configuration keys the engine reads; `KeyName` gives each one's
      name in the configuration file. */
  datatype ConfigKey =
    | Reversion | DvoaWeight | WtRatingsWeight | QbWeight | PlayoffBoost | ZScale
    | MarketRegressionWeight | MinMr | SpreadDeltaBase | RmseBase | LongLineInflator
    | HookCertainty | MarginWeight | WepaWeight | PffWeight | KFactor | LogBase
    | MarketResistFactor | NfeloSpan | SeSpan

  function KeyName(key: ConfigKey): string {
    match key
    case Reversion => "reversion"
    case DvoaWeight => "dvoa_weight"
    case WtRatingsWeight => "wt_ratings_weight"
    case QbWeight => "qb_weight"
    case PlayoffBoost => "playoff_boost"
    case ZScale => "z"
    case MarketRegressionWeight => "market_regression"
    case MinMr => "min_mr"
    case SpreadDeltaBase => "spread_delta_base"
    case RmseBase => "rmse_base"
    case LongLineInflator => "long_line_inflator"
    case HookCertainty => "hook_certainty"
    case MarginWeight => "margin_weight"
    case WepaWeight => "wepa_weight"
    case PffWeight => "pff_weight"
    case KFactor => "k"
    case LogBase => "b"
    case MarketResistFactor => "market_resist_factor"
    case NfeloSpan => "nfelo_span"
    case SeSpan => "se_span"
  }

  /** The configuration: one value per key. */
  datatype Params = Params(
    reversion: real, dvoaWeight: real, wtRatingsWeight: real, qbWeight: real,
    playoffBoost: real, z: real,
    marketRegression: real, minMr: real, spreadDeltaBase: real, rmseBase: real,
    longLineInflator: real, hookCertainty: real,
    marginWeight: real, wepaWeight: real, pffWeight: real,
    k: real, b: real, marketResistFactor: real, nfeloSpan: real, seSpan: real)

  /** `config[key]`. */
  function Get(p: Params, key: ConfigKey): real {
    match key
    case Reversion => p.reversion
    case DvoaWeight => p.dvoaWeight
    case WtRatingsWeight => p.wtRatingsWeight
    case QbWeight => p.qbWeight
    case PlayoffBoost => p.playoffBoost
    case ZScale => p.z
    case MarketRegressionWeight => p.marketRegression
    case MinMr => p.minMr
    case SpreadDeltaBase => p.spreadDeltaBase
    case RmseBase => p.rmseBase
    case LongLineInflator => p.longLineInflator
    case HookCertainty => p.hookCertainty
    case MarginWeight => p.marginWeight
    case WepaWeight => p.wepaWeight
    case PffWeight => p.pffWeight
    case KFactor => p.k
    case LogBase => p.b
    case MarketResistFactor => p.marketResistFactor
    case NfeloSpan => p.nfeloSpan
    case SeSpan => p.seSpan
  }

  /** `config[key] = v`. */
  function Set(p: Params, key: ConfigKey, v: real): (r: Params)
    ensures Get(r, key) == v
    ensures forall other :: other != key ==> Get(r, other) == Get(p, other)
  {
    match key
    case Reversion => p.(reversion := v)
    case DvoaWeight => p.(dvoaWeight := v)
    case WtRatingsWeight => p.(wtRatingsWeight := v)
    case QbWeight => p.(qbWeight := v)
    case PlayoffBoost => p.(playoffBoost := v)
    case ZScale => p.(z := v)
    case MarketRegressionWeight => p.(marketRegression := v)
    case MinMr => p.(minMr := v)
    case SpreadDeltaBase => p.(spreadDeltaBase := v)
    case RmseBase => p.(rmseBase := v)
    case LongLineInflator => p.(longLineInflator := v)
    case HookCertainty => p.(hookCertainty := v)
    case MarginWeight => p.(marginWeight := v)
    case WepaWeight => p.(wepaWeight := v)
    case PffWeight => p.(pffWeight := v)
    case KFactor => p.(k := v)
    case LogBase => p.(b := v)
    case MarketResistFactor => p.(marketResistFactor := v)
    case NfeloSpan => p.(nfeloSpan := v)
    case SeSpan => p.(seSpan := v)
  }

  /** Two configurations that agree on every key are the same. */
  lemma ParamsExtensional(p: Params, q: Params)
    requires forall key :: Get(p, key) == Get(q, key)
    ensures p == q
  {
    assert Get(p, Reversion) == Get(q, Reversion) && Get(p, DvoaWeight) == Get(q, DvoaWeight);
    assert Get(p, WtRatingsWeight) == Get(q, WtRatingsWeight) && Get(p, QbWeight) == Get(q, QbWeight);
    assert Get(p, PlayoffBoost) == Get(q, PlayoffBoost) && Get(p, ZScale) == Get(q, ZScale);
    assert Get(p, MarketRegressionWeight) == Get(q, MarketRegressionWeight) && Get(p, MinMr) == Get(q, MinMr);
    assert Get(p, SpreadDeltaBase) == Get(q, SpreadDeltaBase) && Get(p, RmseBase) == Get(q, RmseBase);
    assert Get(p, LongLineInflator) == Get(q, LongLineInflator) && Get(p, HookCertainty) == Get(q, HookCertainty);
    assert Get(p, MarginWeight) == Get(q, MarginWeight) && Get(p, WepaWeight) == Get(q, WepaWeight);
    assert Get(p, PffWeight) == Get(q, PffWeight) && Get(p, KFactor) == Get(q, KFactor);
    assert Get(p, LogBase) == Get(q, LogBase) && Get(p, MarketResistFactor) == Get(q, MarketResistFactor);
    assert Get(p, NfeloSpan) == Get(q, NfeloSpan) && Get(p, SeSpan) == Get(q, SeSpan);
  }

  /** update_config's merge of new values into the configuration. */
  function Merge(p: Params, newValues: map<ConfigKey, real>): Params {
    Params(
      MergedValue(p, newValues, Reversion), MergedValue(p, newValues, DvoaWeight),
      MergedValue(p, newValues, WtRatingsWeight), MergedValue(p, newValues, QbWeight),
      MergedValue(p, newValues, PlayoffBoost), MergedValue(p, newValues, ZScale),
      MergedValue(p, newValues, MarketRegressionWeight), MergedValue(p, newValues, MinMr),
      MergedValue(p, newValues, SpreadDeltaBase), MergedValue(p, newValues, RmseBase),
      MergedValue(p, newValues, LongLineInflator), MergedValue(p, newValues, HookCertainty),
      MergedValue(p, newValues, MarginWeight), MergedValue(p, newValues, WepaWeight),
      MergedValue(p, newValues, PffWeight), MergedValue(p, newValues, KFactor),
      MergedValue(p, newValues, LogBase), MergedValue(p, newValues, MarketResistFactor),
      MergedValue(p, newValues, NfeloSpan), MergedValue(p, newValues, SeSpan))
  }

  function MergedValue(p: Params, newValues: map<ConfigKey, real>, key: ConfigKey): real {
    if key in newValues then newValues[key] else Get(p, key)
  }

  /** After the merge every key the new values name holds the new value and
      every other key keeps its value. */
  lemma MergeGet(p: Params, newValues: map<ConfigKey, real>, key: ConfigKey)
    ensures Get(Merge(p, newValues), key) == if key in newValues then newValues[key] else Get(p, key)
  {
    match key
    case Reversion =>
    case DvoaWeight =>
    case WtRatingsWeight =>
    case QbWeight =>
    case PlayoffBoost =>
    case ZScale =>
    case MarketRegressionWeight =>
    case MinMr =>
    case SpreadDeltaBase =>
    case RmseBase =>
    case LongLineInflator =>
    case HookCertainty =>
    case MarginWeight =>
    case WepaWeight =>
    case PffWeight =>
    case KFactor =>
    case LogBase =>
    case MarketResistFactor =>
    case NfeloSpan =>
    case SeSpan =>
  }

  /** Merging nothing keeps the configuration. */
  lemma MergeNothing(p: Params)
    ensures Merge(p, map[]) == p
  {
    forall key
      ensures Get(Merge(p, map[]), key) == Get(p, key)
    {
      MergeGet(p, map[], key);
    }
    ParamsExtensional(Merge(p, map[]), p);
  }

  /** Values for which no projection step divides by zero and no shift
      takes a log to base b with b <= 0 or b == 1.  A span of -1 is allowed:
      process_game raises ZeroDivisionError for it (see ProcessValues). */
  predicate ValidParams(p: Params) {
    p.spreadDeltaBase >= 0.0 && p.rmseBase != 0.0 &&
    p.b > 0.0 && p.b != 1.0
  }

  /** Spans whose weights `2 / (1 + span)` process_game can compute. */
  predicate SpansUsable(p: Params) {
    p.nfeloSpan != -1.0 && p.seSpan != -1.0
  }

  function MrConfig(p: Params): (c: MR.Config)
    ensures ValidParams(p) ==> MR.ValidConfig(c)
  {
    MR.Config(p.marketRegression, p.minMr, p.spreadDeltaBase, p.rmseBase, p.longLineInflator, p.hookCertainty)
  }

  /** The read-only inputs of every step: the transcendental functions, the
      probability-to-spread table, the margin distribution and the
      configuration. */
  datatype Env = Env(m: Math, table: ST.Table, dist: seq<DistRow>, params: Params)

  predicate ValidEnv(env: Env) {
    ST.ValidTable(env.table) && ValidParams(env.params)
  }

  // -------------------------------------------------------------------
  // games

  /** The columns of one game row the engine reads. */
  datatype Game = Game(
    homeTeam: string, awayTeam: string, season: int, week: int, gameId: string,
    gameNumberHome: int, gameNumberAway: int,
    homeProjectedDvoa: Option<real>, awayProjectedDvoa: Option<real>,
    homeWtRating: Option<real>, awayWtRating: Option<real>,
    hfaMod: real, homeQbAdj: real, awayQbAdj: real, homeByeMod: real, awayByeMod: real,
    isPlayoffs: bool,
    marketEloDifOpen: real, marketEloDifClose: real, homeLineOpen: real, homeLineClose: real,
    homeMargin: Option<real>, awayMargin: Option<real>,
    homeWepaMargin: Option<real>, awayWepaMargin: Option<real>,
    homePffMargin: Option<real>, awayPffMargin: Option<real>)

  datatype TeamSide = HomeSide | AwaySide

  function TeamOf(g: Game, side: TeamSide): string {
    if side == HomeSide then g.homeTeam else g.awayTeam
  }

  /** The reversion applies on a team's first game of any season after the
      first. */
  predicate NeedsReversion(g: Game, side: TeamSide) {
    (if side == HomeSide then g.gameNumberHome else g.gameNumberAway) == 1 && g.season > FirstSeason
  }

  // -------------------------------------------------------------------
  // project_game: starting ratings

  /** `statistics.median(yearly_elos[season])`: a KeyError for a season with
      no week-17 ratings, a StatisticsError for an empty list. */
  function LeagueElo(yearly: map<int, seq<real>>, season: int): (r: Result<real, Error>)
    ensures r.Ok? <==> season in yearly && |yearly[season]| > 0
    ensures r.Ok? ==> Median(yearly[season]) == Some(r.value)
  {
    if season !in yearly then Err(KeyMissing("yearly_elos season"))
    else
      match Median(yearly[season])
      case None => Err(BadValue("no median for empty data"))
      case Some(x) => Ok(x)
  }

  /** `1505 + scale * x`, NaN for a NaN projection. */
  function Implied(x: Option<real>, scale: real): (r: Option<real>)
    ensures r.Some? <==> x.Some?
  {
    match x
    case None => None
    case Some(v) => Some(OR.MeanElo + scale * v)
  }

  datatype Reverted = Reverted(rating: real, record: Option<ReversionRecord>)

  /** One pass of project_game's loop over the two sides: the rating kept,
      or the offseason regression of it and the record kept about it. */
  function RevertSide(p: Params, yearly: map<int, seq<real>>, g: Game, side: TeamSide, start: real)
    : (r: Result<Reverted, Error>)
    ensures !NeedsReversion(g, side) ==> r == Ok(Reverted(start, None))
    ensures NeedsReversion(g, side) ==> (r.Ok? <==> LeagueElo(yearly, g.season - 1).Ok?)
    ensures NeedsReversion(g, side) && r.Ok? ==> r.value.record.Some? && r.value.record.value.newElo == r.value.rating
  {
    if !NeedsReversion(g, side) then Ok(Reverted(start, None))
    else
      match LeagueElo(yearly, g.season - 1)
      case Err(e) => Err(e)
      case Ok(league) =>
        var dvoa := if side == HomeSide then g.homeProjectedDvoa else g.awayProjectedDvoa;
        var wt := if side == HomeSide then g.homeWtRating else g.awayWtRating;
        var previousEloNorm := OR.MeanElo + (start - league);
        var rating := OR.Regress(league, start, dvoa, wt, p.reversion, p.dvoaWeight, p.wtRatingsWeight);
        var record := ReversionRecord(
          TeamOf(g, side), g.season, g.week, start, league,
          p.reversion * OR.MeanElo + (1.0 - p.reversion) * previousEloNorm,
          Implied(dvoa, 484.0), Implied(wt, 24.8), rating);
        Ok(Reverted(rating, Some(record)))
  }

  /** The start of a regressed side is the offseason regression towards last
      season's median, and the record's mean-reverted rating is the one the
      regression blends. */
  lemma RevertSideIsOffseasonRegression(p: Params, yearly: map<int, seq<real>>, g: Game, side: TeamSide, start: real)
    requires NeedsReversion(g, side) && LeagueElo(yearly, g.season - 1).Ok?
    ensures var league := LeagueElo(yearly, g.season - 1).value;
            var r := RevertSide(p, yearly, g, side, start).value;
            r.rating == OR.Regress(league, start,
                                   if side == HomeSide then g.homeProjectedDvoa else g.awayProjectedDvoa,
                                   if side == HomeSide then g.homeWtRating else g.awayWtRating,
                                   p.reversion, p.dvoaWeight, p.wtRatingsWeight) &&
            r.record.value.meanRevertedElo == OR.MeanReverted(league, start, p.reversion) &&
            r.record.value.previousEndingElo == start && r.record.value.leagueElo == league &&
            r.record.value.team == TeamOf(g, side)
  {
  }

  /** The starting ratings reached so far and the reversion records
      appended so far. */
  datatype Start = Start(home: real, away: real, reversions: seq<ReversionRecord>)

  /** One side's pass recorded in the running start. */
  function Advanced(s: Start, side: TeamSide, rv: Reverted): (r: Start)
    ensures r.reversions == s.reversions + RecordsOf(rv)
    ensures side == HomeSide ==> r.home == rv.rating && r.away == s.away
    ensures side == AwaySide ==> r.away == rv.rating && r.home == s.home
  {
    if side == HomeSide then Start(rv.rating, s.away, s.reversions + RecordsOf(rv))
    else Start(s.home, rv.rating, s.reversions + RecordsOf(rv))
  }

  // -------------------------------------------------------------------
  // project_game: the projection

  /** Rating difference plus home field plus weighted QB difference. */
  function ContextDif(p: Params, g: Game, startHome: real, startAway: real): real {
    startHome - startAway + g.hfaMod + p.qbWeight * (g.homeQbAdj - g.awayQbAdj)
  }

  /** The initial elo difference: grossed up by `1 + playoff_boost` for
      playoff games only. */
  function InitialEloDif(p: Params, g: Game, startHome: real, startAway: real): (r: real)
    ensures !g.isPlayoffs ==> r == ContextDif(p, g, startHome, startAway)
    ensures g.isPlayoffs ==> r == ContextDif(p, g, startHome, startAway) * (1.0 + p.playoffBoost)
  {
    var dif := ContextDif(p, g, startHome, startAway);
    if g.isPlayoffs then dif * (1.0 + p.playoffBoost) else dif
  }

  /** Raising the home start by x raises the initial difference by exactly x,
      or by x times the playoff gross-up; the difference is antisymmetric in
      the two ratings once context is removed. */
  lemma InitialEloDifShift(p: Params, g: Game, startHome: real, startAway: real, x: real)
    ensures InitialEloDif(p, g, startHome + x, startAway) - InitialEloDif(p, g, startHome, startAway)
         == (if g.isPlayoffs then x * (1.0 + p.playoffBoost) else x)
    ensures ContextDif(p, g, startHome, startAway) - g.hfaMod - p.qbWeight * (g.homeQbAdj - g.awayQbAdj)
         == -(ContextDif(p, g, startAway, startHome) - g.hfaMod - p.qbWeight * (g.homeQbAdj - g.awayQbAdj))
  {
    if g.isPlayoffs {
      var d := ContextDif(p, g, startHome, startAway);
      assert ContextDif(p, g, startHome + x, startAway) == d + x;
      assert (d + x) * (1.0 + p.playoffBoost) - d * (1.0 + p.playoffBoost) == x * (1.0 + p.playoffBoost);
    }
  }

  /** The probability of a regressed difference: elo_to_prob is called with
      its default z = 400, not the configured z. */
  function RegressedProbability(m: Math, dif: real): (r: real)
    ensures ST.EloToProb(m, dif, 400.0) == Ok(r)
    ensures 0.0 < r < 1.0
  {
    ST.EloToProb(m, dif, 400.0).value
  }

  /** `(cover - 1.1 * loss) / 1.1`, the EV per unit won. */
  function Ev(cover: real, loss: real): real {
    (cover - 1.1 * loss) / 1.1
  }

  datatype Projection = Projection(
    startingHome: real, startingAway: real,
    difPreAdjustment: real, netQbMod: real, netByeMod: real,
    difBase: real, probabilityBase: real, lineBase: real, spreadDelta: real,
    difOpen: real, factorOpen: real, difClose: real, factorClose: real,
    probabilityOpen: real, lineOpen: real, probabilityClose: real, lineClose: real,
    openProbs: CoverProbs, closeProbs: CoverProbs, awayCloseProbs: CoverProbs,
    homeOpenEv: real, awayOpenEv: real, homeCloseEv: real, awayCloseEv: real,
    clv: ClvPair)

  /** The rolling errors regress_to_market reads: home model, home market,
      away model, away market. */
  function SeOf(elos: map<string, TeamState>, g: Game): MR.SeContext
    requires g.homeTeam in elos && g.awayTeam in elos
  {
    MR.SeContext(elos[g.homeTeam].endingModelSe, elos[g.homeTeam].endingMarketSe,
                 elos[g.awayTeam].endingModelSe, elos[g.awayTeam].endingMarketSe)
  }

  /** project_game after the starting ratings: every column it adds, or the
      exception it raises (z <= 0, or a probability key the table lacks).
      The base probability uses the configured z on the initial difference;
      both regressions start from that difference and the base line; the
      regressed probabilities use z = 400. */
  function ProjectFromStart(env: Env, elos: map<string, TeamState>, g: Game, startHome: real, startAway: real)
    : (r: Result<Projection, Error>)
    requires ValidEnv(env) && g.homeTeam in elos && g.awayTeam in elos
    ensures env.params.z <= 0.0 ==> r.Err?
    ensures r.Ok? ==> r.value.startingHome == startHome && r.value.startingAway == startAway
    ensures r.Ok? ==>
            r.value.difBase == InitialEloDif(env.params, g, startHome, startAway) &&
            ST.EloToProb(env.m, r.value.difBase, env.params.z) == Ok(r.value.probabilityBase) &&
            ST.ProbabilityToSpreadFloat(env.table, r.value.probabilityBase) == Ok(r.value.lineBase) &&
            r.value.spreadDelta == r.value.lineBase - g.homeLineOpen
    ensures r.Ok? ==>
            MR.RegressToMarket(env.m, MrConfig(env.params), r.value.difBase, g.marketEloDifOpen, r.value.lineBase, g.homeLineOpen, SeOf(elos, g))
              == MR.Regression(r.value.difOpen, r.value.factorOpen) &&
            MR.RegressToMarket(env.m, MrConfig(env.params), r.value.difBase, g.marketEloDifClose, r.value.lineBase, g.homeLineClose, SeOf(elos, g))
              == MR.Regression(r.value.difClose, r.value.factorClose) &&
            ST.EloToProb(env.m, r.value.difOpen, 400.0) == Ok(r.value.probabilityOpen) &&
            ST.EloToProb(env.m, r.value.difClose, 400.0) == Ok(r.value.probabilityClose) &&
            ST.ProbabilityToSpreadFloat(env.table, r.value.probabilityOpen) == Ok(r.value.lineOpen) &&
            ST.ProbabilityToSpreadFloat(env.table, r.value.probabilityClose) == Ok(r.value.lineClose)
  {
    var p := env.params;
    var initial := InitialEloDif(p, g, startHome, startAway);
    var probBase := ST.EloToProb(env.m, initial, p.z);
    if probBase.Err? then Err(probBase.error)
    else
      var lineBase := ST.ProbabilityToSpreadFloat(env.table, probBase.value);
      if lineBase.Err? then Err(lineBase.error)
      else
        var se := SeOf(elos, g);
        var regOpen := MR.RegressToMarket(env.m, MrConfig(p), initial, g.marketEloDifOpen,
                                          lineBase.value, g.homeLineOpen, se);
        var regClose := MR.RegressToMarket(env.m, MrConfig(p), initial, g.marketEloDifClose,
                                           lineBase.value, g.homeLineClose, se);
        var probOpen := RegressedProbability(env.m, regOpen.regressedDif);
        var lineOpen := ST.ProbabilityToSpreadFloat(env.table, probOpen);
        if lineOpen.Err? then Err(lineOpen.error)
        else
          var probClose := RegressedProbability(env.m, regClose.regressedDif);
          var lineClose := ST.ProbabilityToSpreadFloat(env.table, probClose);
          if lineClose.Err? then Err(lineClose.error)
          else
            var openP := CalcCoverProbs(env.dist, lineOpen.value, g.homeLineOpen);
            var closeP := CalcCoverProbs(env.dist, lineClose.value, g.homeLineClose);
            Ok(Projection(
              startHome, startAway,
              startHome - startAway, p.qbWeight * (g.homeQbAdj - g.awayQbAdj), g.homeByeMod - g.awayByeMod,
              initial, probBase.value, lineBase.value, lineBase.value - g.homeLineOpen,
              regOpen.regressedDif, regOpen.factorUsed, regClose.regressedDif, regClose.factorUsed,
              probOpen, lineOpen.value, probClose, lineClose.value,
              openP, closeP, Mirror(closeP),
              Ev(openP.cover, openP.loss), Ev(openP.loss, openP.cover),
              Ev(closeP.cover, closeP.loss), Ev(closeP.loss, closeP.cover),
              CalcClv(env.dist, g.homeLineOpen, g.homeLineClose)))
  }

  /** What project_game produces and appends. */
  datatype ProjectOutcome = ProjectOutcome(result: Result<Projection, Error>, reversions: seq<ReversionRecord>)

  /** project_game: both lookups (KeyError for a team without a rating),
      then the loop over the home and the away side, then the projection. */
  function Project(env: Env, st: EngineState, g: Game): (r: ProjectOutcome)
    requires ValidEnv(env)
    ensures r.result.Ok? ==> g.homeTeam in st.currentElos && g.awayTeam in st.currentElos
  {
    var elos := st.currentElos;
    if g.homeTeam !in elos then ProjectOutcome(Err(KeyMissing(g.homeTeam)), [])
    else if g.awayTeam !in elos then ProjectOutcome(Err(KeyMissing(g.awayTeam)), [])
    else ProjectSides(env, elos, st.yearlyElos, g, [HomeSide, AwaySide],
                      Start(elos[g.homeTeam].endingNfelo, elos[g.awayTeam].endingNfelo, []))
  }

  /** The loop over the sides still to visit: each pass regresses its side's
      start where it must and appends the record, and a pass that raises
      ends the projection with the records appended before it; after the
      last pass the projection runs from the starts reached. */
  function ProjectSides(env: Env, elos: map<string, TeamState>, yearly: map<int, seq<real>>, g: Game,
                        sides: seq<TeamSide>, s: Start): (r: ProjectOutcome)
    requires ValidEnv(env) && g.homeTeam in elos && g.awayTeam in elos
    decreases |sides|
  {
    if |sides| == 0 then ProjectOutcome(ProjectFromStart(env, elos, g, s.home, s.away), s.reversions)
    else
      var side := sides[0];
      match RevertSide(env.params, yearly, g, side, if side == HomeSide then s.home else s.away)
      case Err(e) => ProjectOutcome(Err(e), s.reversions)
      case Ok(rv) => ProjectSides(env, elos, yearly, g, sides[1..], Advanced(s, side, rv))
  }

  /** The records a reverted side leaves. */
  function RecordsOf(r: Reverted): seq<ReversionRecord> {
    if r.record.Some? then [r.record.value] else []
  }

  /** project_game in the order its statements run: both lookups, the home
      side, the away side, then the projection. */
  lemma ProjectSteps(env: Env, st: EngineState, g: Game)
    requires ValidEnv(env) && g.homeTeam in st.currentElos && g.awayTeam in st.currentElos
    ensures var home := RevertSide(env.params, st.yearlyElos, g, HomeSide, st.currentElos[g.homeTeam].endingNfelo);
            var away := RevertSide(env.params, st.yearlyElos, g, AwaySide, st.currentElos[g.awayTeam].endingNfelo);
            Project(env, st, g) ==
              if home.Err? then ProjectOutcome(Err(home.error), [])
              else if away.Err? then ProjectOutcome(Err(away.error), RecordsOf(home.value))
              else ProjectOutcome(ProjectFromStart(env, st.currentElos, g, home.value.rating, away.value.rating),
                                  RecordsOf(home.value) + RecordsOf(away.value))
  {
    var elos := st.currentElos;
    var s0 := Start(elos[g.homeTeam].endingNfelo, elos[g.awayTeam].endingNfelo, []);
    var home := RevertSide(env.params, st.yearlyElos, g, HomeSide, s0.home);
    if home.Ok? {
      var s1 := Advanced(s0, HomeSide, home.value);
      assert [HomeSide, AwaySide][1..] == [AwaySide];
      assert Project(env, st, g) == ProjectSides(env, elos, st.yearlyElos, g, [AwaySide], s1);
      assert s1.reversions == RecordsOf(home.value);
      var away := RevertSide(env.params, st.yearlyElos, g, AwaySide, s1.away);
      if away.Ok? {
        var s2 := Advanced(s1, AwaySide, away.value);
        assert [AwaySide][1..] == [];
        assert ProjectSides(env, elos, st.yearlyElos, g, [AwaySide], s1)
            == ProjectSides(env, elos, st.yearlyElos, g, [], s2);
      }
    }
  }

  /** Each side starts from its team's current ending rating unless it is
      the team's first game of a season after the first, when the offseason
      regression of that rating replaces it and a record is kept for it.  A
      missing team raises first; the regression raises only when last
      season has no week-17 ratings, and then nothing has been appended. */
  lemma ProjectStartRule(env: Env, st: EngineState, g: Game)
    requires ValidEnv(env)
    ensures g.homeTeam !in st.currentElos ==> Project(env, st, g) == ProjectOutcome(Err(KeyMissing(g.homeTeam)), [])
    ensures g.homeTeam in st.currentElos && g.awayTeam !in st.currentElos ==>
      Project(env, st, g) == ProjectOutcome(Err(KeyMissing(g.awayTeam)), [])
    ensures g.homeTeam in st.currentElos && g.awayTeam in st.currentElos &&
            (NeedsReversion(g, HomeSide) || NeedsReversion(g, AwaySide)) &&
            LeagueElo(st.yearlyElos, g.season - 1).Err? ==>
      Project(env, st, g) == ProjectOutcome(Err(LeagueElo(st.yearlyElos, g.season - 1).error), [])
    ensures Project(env, st, g).result.Ok? ==>
      var elos := st.currentElos;
      var r := Project(env, st, g).result.value;
      (!NeedsReversion(g, HomeSide) ==> r.startingHome == elos[g.homeTeam].endingNfelo) &&
      (!NeedsReversion(g, AwaySide) ==> r.startingAway == elos[g.awayTeam].endingNfelo) &&
      (NeedsReversion(g, HomeSide) ==>
         r.startingHome == RevertSide(env.params, st.yearlyElos, g, HomeSide, elos[g.homeTeam].endingNfelo).value.rating) &&
      (NeedsReversion(g, AwaySide) ==>
         r.startingAway == RevertSide(env.params, st.yearlyElos, g, AwaySide, elos[g.awayTeam].endingNfelo).value.rating) &&
      |Project(env, st, g).reversions|
        == (if NeedsReversion(g, HomeSide) then 1 else 0) + (if NeedsReversion(g, AwaySide) then 1 else 0)
  {
    if g.homeTeam in st.currentElos && g.awayTeam in st.currentElos {
      ProjectSteps(env, st, g);
    }
  }

  /** The away close probabilities are the home ones with loss and cover
      swapped, the push shared; each EV is (cover - 1.1 loss) / 1.1 from its
      side, i.e. the nominal EV per 1.1 risked; the three home probabilities
      split the projected bucket. */
  lemma ProjectionEvs(env: Env, elos: map<string, TeamState>, g: Game, startHome: real, startAway: real)
    requires ValidEnv(env) && g.homeTeam in elos && g.awayTeam in elos
    requires ProjectFromStart(env, elos, g, startHome, startAway).Ok?
    ensures var r := ProjectFromStart(env, elos, g, startHome, startAway).value;
            r.awayCloseProbs.loss == r.closeProbs.cover &&
            r.awayCloseProbs.push == r.closeProbs.push &&
            r.awayCloseProbs.cover == r.closeProbs.loss &&
            r.homeCloseEv == NominalEv(r.closeProbs) / 1.1 &&
            r.awayCloseEv == NominalEv(r.awayCloseProbs) / 1.1 &&
            r.homeOpenEv == NominalEv(r.openProbs) / 1.1 &&
            r.awayOpenEv == NominalEv(Mirror(r.openProbs)) / 1.1 &&
            r.closeProbs.loss + r.closeProbs.push + r.closeProbs.cover
              == BucketMass(env.dist, FlippedTenths(r.lineClose))
  {
    var r := ProjectFromStart(env, elos, g, startHome, startAway).value;
    CoverProbsPartition(env.dist, r.lineClose, g.homeLineClose);
  }

  /** Regressed probability as intended: with the configured z, so that an
      unregressed difference keeps the base probability. */
  function RegressedProbabilityIntended(m: Math, p: Params, dif: real): (r: Result<real, Error>)
    ensures r == ST.EloToProb(m, dif, p.z)
  {
    ST.EloToProb(m, dif, p.z)
  }

  /** With the configured z, a regression that leaves the difference where it
      was leaves the probability at the base probability. */
  lemma IntendedKeepsBaseProbability(env: Env, elos: map<string, TeamState>, g: Game, startHome: real, startAway: real)
    requires ValidEnv(env) && g.homeTeam in elos && g.awayTeam in elos
    requires ProjectFromStart(env, elos, g, startHome, startAway).Ok?
    requires ProjectFromStart(env, elos, g, startHome, startAway).value.difOpen
          == ProjectFromStart(env, elos, g, startHome, startAway).value.difBase
    ensures var r := ProjectFromStart(env, elos, g, startHome, startAway).value;
            RegressedProbabilityIntended(env.m, env.params, r.difOpen) == Ok(r.probabilityBase)
  {
  }

  /** As written, a difference of 400 with a configured z of 200 gets the
      z = 400 probability 1 / (10^-1 + 1) = 10/11 rather than the z = 200
      probability 1 / (10^-2 + 1) = 100/101. */
  lemma RegressedProbabilityIgnoresConfiguredZ(m: Math, p: Params)
    requires p.z == 200.0
    requires m.pow10(-1.0) == 0.1 && m.pow10(-2.0) == 0.01
    ensures RegressedProbability(m, 400.0) == 10.0 / 11.0
    ensures RegressedProbabilityIntended(m, p, 400.0) == Ok(100.0 / 101.0)
  {
    assert -400.0 / 400.0 == -1.0;
    assert -400.0 / 200.0 == -2.0;
  }

  // -------------------------------------------------------------------
  // process_game

  /** The three observations of one side: score margin, WEPA margin and PFF
      margin, each with its configured weight. */
  function Observations(p: Params, margin: real, wepa: Option<real>, pff: Option<real>): seq<ES.Observation> {
    [ES.Observation(Some(margin), p.marginWeight), ES.Observation(wepa, p.wepaWeight),
     ES.Observation(pff, p.pffWeight)]
  }

  function HomeObservations(p: Params, g: Game): seq<ES.Observation>
    requires g.homeMargin.Some?
  {
    Observations(p, g.homeMargin.value, g.homeWepaMargin, g.homePffMargin)
  }

  function AwayObservations(p: Params, g: Game): seq<ES.Observation>
    requires g.awayMargin.Some?
  {
    Observations(p, g.awayMargin.value, g.awayWepaMargin, g.awayPffMargin)
  }

  /** One side's weighted shift: that side's own observations, the
      unregressed model line and the closing market line. */
  function SideShift(env: Env, obs: seq<ES.Observation>, lineBase: real, g: Game, isHome: bool)
    : Result<real, Error>
    requires ValidEnv(env)
  {
    var p := env.params;
    ES.WeightedAvg(ES.ShiftPairs(env.m, obs, lineBase, g.homeLineClose, p.k, p.b, p.marketResistFactor, isHome))
  }

  /** The post-game values process_game computes. */
  datatype Processed = Processed(shiftHome: real, shiftAway: real, endingHome: real, endingAway: real,
                                 seMarket: real, seModel: real)

  /** process_game's computations before it writes anything: it raises for
      an unplayed game (a null margin), when a side has no weight left, and,
      once both shifts are known, when a span of -1 makes a rolling weight
      divide by zero. */
  function ProcessValues(env: Env, g: Game, proj: Projection): (r: Result<Processed, Error>)
    requires ValidEnv(env)
    ensures g.homeMargin.None? || g.awayMargin.None? ==> r.Err?
    ensures !SpansUsable(env.params) ==> r.Err?
    ensures r.Err? && g.homeMargin.Some? && g.awayMargin.Some? && !SpansUsable(env.params)
            && SideShift(env, HomeObservations(env.params, g), proj.lineBase, g, true).Ok?
            && SideShift(env, AwayObservations(env.params, g), proj.lineBase, g, false).Ok?
            ==> r.error == ZeroDivision
    ensures r.Ok? ==>
      r.value.endingHome == proj.startingHome + r.value.shiftHome &&
      r.value.endingAway == proj.startingAway + r.value.shiftAway
  {
    if g.homeMargin.None? || g.awayMargin.None? then Err(BadValue("Attempted to process an unplayed game"))
    else
      var home := SideShift(env, HomeObservations(env.params, g), proj.lineBase, g, true);
      if home.Err? then Err(home.error)
      else
        var away := SideShift(env, AwayObservations(env.params, g), proj.lineBase, g, false);
        if away.Err? then Err(away.error)
        else if !SpansUsable(env.params) then Err(ZeroDivision)
        else
          Ok(Processed(home.value, away.value,
                       proj.startingHome + home.value, proj.startingAway + away.value,
                       SeAsWritten(g.homeMargin.value, g.homeLineClose),
                       SeAsWritten(g.homeMargin.value, proj.lineBase)))
  }

  /** The squared error process_game records: (margin - line) ** 2. */
  function SeAsWritten(margin: real, line: real): real {
    Sq(margin - line)
  }

  /** A home line is the negated expected margin, so the margin minus the
      line is not the error: a perfect line of -3 for a 3-point win scores
      36 rather than 0. */
  lemma SeAsWrittenPenalisesPerfectLine()
    ensures SeAsWritten(3.0, -3.0) == 36.0
    ensures SeIntended(3.0, -3.0) == 0.0
  {
  }

  /** The squared error as NfeloGraderModel and the legacy engine compute it:
      (line + margin) ** 2. */
  function SeIntended(margin: real, line: real): (r: real)
    ensures r == Scoring.GradeSe(line, margin)
  {
    Sq(line + margin)
  }

  /** The intended squared error is zero exactly for a perfect line and never
      negative. */
  lemma SeIntendedZeroIffPerfect(margin: real, line: real)
    ensures SeIntended(margin, line) >= 0.0
    ensures SeIntended(margin, line) == 0.0 <==> line == -margin
  {
    Scoring.GradeSeProperties(line, margin);
  }

  /** The exponential-average weight `2 / (1 + span)`. */
  function Alpha(span: real): real
    requires span != -1.0
  {
    2.0 / (1.0 + span)
  }

  /** One step of a rolling average: `start * (1 - a) + |x| * a`. */
  function Ema(start: real, x: real, alpha: real): real {
    start * (1.0 - alpha) + Abs(x) * alpha
  }

  /** With a weight in [0, 1] the new average lies between the old one and
      |x|, so nonnegative averages stay nonnegative. */
  lemma EmaBetween(start: real, x: real, alpha: real)
    requires 0.0 <= alpha <= 1.0
    ensures Min(start, Abs(x)) <= Ema(start, x, alpha) <= Max(start, Abs(x))
    ensures start >= 0.0 ==> Ema(start, x, alpha) >= 0.0
  {
    var a := Abs(x);
    assert Ema(start, x, alpha) == start + Mul(alpha, a - start);
    if a >= start {
      MulMonotone(0.0, a - start, alpha);
      MulMonotone(alpha, a - start, 1.0);
    } else {
      MulMonotone(0.0, start - a, alpha);
      MulMonotone(alpha, start - a, 1.0);
      assert Mul(alpha, a - start) == -Mul(alpha, start - a);
    }
  }

  /** A span of at least 1 gives a weight in (0, 1]. */
  lemma AlphaInUnit(span: real)
    requires span >= 1.0
    ensures 0.0 < Alpha(span) <= 1.0
  {
  }

  /** A team's snapshot after a game: identity fields from the row, the
      rating from the projection and the shift, each rolling value moved to
      `starting_*` and averaged into `ending_*`.  The opponent is not set
      here. */
  function Advance(s: TeamState, p: Params, g: Game, start: real, ending: real,
                   shift: real, seModel: real, seMarket: real): (r: TeamState)
    requires SpansUsable(p)
    ensures r.team == s.team && r.opponent == s.opponent
    ensures r.season == g.season && r.week == g.week && r.gameId == Some(g.gameId)
    ensures r.startingNfelo == Some(start) && r.endingNfelo == ending
    ensures r.startingNfeloAdj == s.endingNfeloAdj && r.startingModelSe == s.endingModelSe
         && r.startingMarketSe == s.endingMarketSe
    ensures r.endingNfeloAdj == Ema(s.endingNfeloAdj, shift, Alpha(p.nfeloSpan))
    ensures r.endingModelSe == Ema(s.endingModelSe, seModel, Alpha(p.seSpan))
    ensures r.endingMarketSe == Ema(s.endingMarketSe, seMarket, Alpha(p.seSpan))
  {
    Rolled(Rated(Basics(s, g), start, ending), p, shift, seModel, seMarket)
  }

  /** The identity fields of a snapshot after a game. */
  function Basics(s: TeamState, g: Game): TeamState {
    s.(season := g.season, week := g.week, gameId := Some(g.gameId))
  }

  /** The ratings of a snapshot after a game. */
  function Rated(s: TeamState, start: real, ending: real): TeamState {
    s.(startingNfelo := Some(start), endingNfelo := ending)
  }

  /** The rolling values after a game: the old ending values become the
      starting values and are averaged with the new observations. */
  function Rolled(s: TeamState, p: Params, shift: real, seModel: real, seMarket: real): TeamState
    requires SpansUsable(p)
  {
    var reset := s.(startingNfeloAdj := s.endingNfeloAdj, startingModelSe := s.endingModelSe,
                    startingMarketSe := s.endingMarketSe);
    reset.(endingNfeloAdj := Ema(reset.startingNfeloAdj, shift, Alpha(p.nfeloSpan)),
           endingModelSe := Ema(reset.startingModelSe, seModel, Alpha(p.seSpan)),
           endingMarketSe := Ema(reset.startingMarketSe, seMarket, Alpha(p.seSpan)))
  }

  /** The rolling values a snapshot keeps are nonnegative. */
  predicate RollingNonnegative(s: TeamState) {
    s.startingNfeloAdj >= 0.0 && s.endingNfeloAdj >= 0.0 &&
    s.startingMarketSe >= 0.0 && s.endingMarketSe >= 0.0 &&
    s.startingModelSe >= 0.0 && s.endingModelSe >= 0.0
  }

  /** With spans of at least 1, advancing a snapshot keeps its rolling values
      nonnegative. */
  lemma AdvanceKeepsRollingNonnegative(s: TeamState, p: Params, g: Game, start: real, ending: real,
                                       shift: real, seModel: real, seMarket: real)
    requires p.nfeloSpan >= 1.0 && p.seSpan >= 1.0
    requires RollingNonnegative(s)
    ensures RollingNonnegative(Advance(s, p, g, start, ending, shift, seModel, seMarket))
  {
    AlphaInUnit(p.nfeloSpan);
    AlphaInUnit(p.seSpan);
    EmaBetween(s.endingNfeloAdj, shift, Alpha(p.nfeloSpan));
    EmaBetween(s.endingModelSe, seModel, Alpha(p.seSpan));
    EmaBetween(s.endingMarketSe, seMarket, Alpha(p.seSpan));
  }

  /** The table after process_game writes both teams, as written: the home
      team's opponent is first set to the away team and then, at
      Nfelo.py:291, to the home team itself; the away team's opponent is
      never written. */
  function ElosAfter(p: Params, elos: map<string, TeamState>, g: Game, proj: Projection, v: Processed)
    : (r: map<string, TeamState>)
    requires SpansUsable(p) && g.homeTeam in elos && g.awayTeam in elos
    ensures r.Keys == elos.Keys
  {
    AwayWrites(p, HomeWrites(p, elos, g, proj, v), g, proj, v)
  }

  /** The home block of process_game. */
  function HomeWrites(p: Params, elos: map<string, TeamState>, g: Game, proj: Projection, v: Processed)
    : (r: map<string, TeamState>)
    requires SpansUsable(p) && g.homeTeam in elos
    ensures r.Keys == elos.Keys
  {
    var ht := g.homeTeam;
    var e1 := elos[ht := Basics(elos[ht], g)];
    var e2 := e1[ht := e1[ht].(opponent := Some(g.awayTeam))];
    var e3 := e2[ht := Rated(e2[ht], proj.startingHome, v.endingHome)];
    e3[ht := Rolled(e3[ht], p, v.shiftHome, v.seModel, v.seMarket)]
  }

  /** The away block of process_game, whose opponent line writes the home
      team's snapshot. */
  function AwayWrites(p: Params, elos: map<string, TeamState>, g: Game, proj: Projection, v: Processed)
    : (r: map<string, TeamState>)
    requires SpansUsable(p) && g.homeTeam in elos && g.awayTeam in elos
    ensures r.Keys == elos.Keys
  {
    var ht := g.homeTeam;
    var at := g.awayTeam;
    var e5 := elos[at := Basics(elos[at], g)];
    var e6 := e5[ht := e5[ht].(opponent := Some(ht))];
    var e7 := e6[at := Rated(e6[at], proj.startingAway, v.endingAway)];
    e7[at := Rolled(e7[at], p, v.shiftAway, v.seModel, v.seMarket)]
  }

  /** For two different teams the table after a game holds each team's
      advanced snapshot; the home snapshot names the home team as opponent,
      the away snapshot keeps its old opponent, and no other team changes. */
  lemma ElosAfterTeams(p: Params, elos: map<string, TeamState>, g: Game, proj: Projection, v: Processed)
    requires SpansUsable(p) && g.homeTeam in elos && g.awayTeam in elos && g.homeTeam != g.awayTeam
    ensures ElosAfter(p, elos, g, proj, v)[g.homeTeam]
         == Advance(elos[g.homeTeam], p, g, proj.startingHome, v.endingHome, v.shiftHome, v.seModel, v.seMarket)
              .(opponent := Some(g.homeTeam))
    ensures ElosAfter(p, elos, g, proj, v)[g.awayTeam]
         == Advance(elos[g.awayTeam], p, g, proj.startingAway, v.endingAway, v.shiftAway, v.seModel, v.seMarket)
    ensures forall t :: t in elos && t != g.homeTeam && t != g.awayTeam ==> ElosAfter(p, elos, g, proj, v)[t] == elos[t]
  {
  }

  /** As written, a processed home team records itself as its opponent and the
      away team keeps the opponent of its previous game. */
  lemma OpponentAsWritten(p: Params, elos: map<string, TeamState>, g: Game, proj: Projection, v: Processed)
    requires SpansUsable(p) && g.homeTeam in elos && g.awayTeam in elos && g.homeTeam != g.awayTeam
    ensures ElosAfter(p, elos, g, proj, v)[g.homeTeam].opponent == Some(g.homeTeam)
    ensures ElosAfter(p, elos, g, proj, v)[g.awayTeam].opponent == elos[g.awayTeam].opponent
  {
  }

  /** The table as intended: each team's opponent is the other team. */
  function ElosAfterIntended(p: Params, elos: map<string, TeamState>, g: Game, proj: Projection, v: Processed)
    : (r: map<string, TeamState>)
    requires SpansUsable(p) && g.homeTeam in elos && g.awayTeam in elos
    ensures r.Keys == elos.Keys
  {
    var ht := g.homeTeam;
    var at := g.awayTeam;
    var e1 := elos[ht := Advance(elos[ht], p, g, proj.startingHome, v.endingHome, v.shiftHome, v.seModel, v.seMarket)
                          .(opponent := Some(g.awayTeam))];
    e1[at := Advance(e1[at], p, g, proj.startingAway, v.endingAway, v.shiftAway, v.seModel, v.seMarket)
               .(opponent := Some(g.homeTeam))]
  }

  /** In the intended table each team's opponent is the other, and it differs
      from the as-written table in the opponents only. */
  lemma OpponentIntended(p: Params, elos: map<string, TeamState>, g: Game, proj: Projection, v: Processed)
    requires SpansUsable(p) && g.homeTeam in elos && g.awayTeam in elos && g.homeTeam != g.awayTeam
    ensures ElosAfterIntended(p, elos, g, proj, v)[g.homeTeam].opponent == Some(g.awayTeam)
    ensures ElosAfterIntended(p, elos, g, proj, v)[g.awayTeam].opponent == Some(g.homeTeam)
    ensures ElosAfterIntended(p, elos, g, proj, v)[g.homeTeam].(opponent := None)
         == ElosAfter(p, elos, g, proj, v)[g.homeTeam].(opponent := None)
    ensures ElosAfterIntended(p, elos, g, proj, v)[g.awayTeam].(opponent := None)
         == ElosAfter(p, elos, g, proj, v)[g.awayTeam].(opponent := None)
  {
  }

  /** In week 17 both ending ratings are appended to that season's list,
      which is created when missing; other weeks leave the lists alone. */
  function YearlyAfter(yearly: map<int, seq<real>>, g: Game, v: Processed): (r: map<int, seq<real>>)
    ensures g.week != 17 ==> r == yearly
    ensures g.week == 17 ==> r.Keys == yearly.Keys + {g.season}
    ensures g.week == 17 ==> r[g.season] == (if g.season in yearly then yearly[g.season] else []) + [v.endingHome, v.endingAway]
    ensures forall s :: s in yearly && s != g.season ==> s in r && r[s] == yearly[s]
  {
    if g.week == 17 then
      var y0 := if g.season in yearly then yearly else yearly[g.season := []];
      var y1 := y0[g.season := y0[g.season] + [v.endingHome]];
      assert y1[g.season] + [v.endingAway] == y0[g.season] + [v.endingHome, v.endingAway];
      y1[g.season := y1[g.season] + [v.endingAway]]
    else yearly
  }

  /** What process_game produces and the state it leaves. */
  datatype ProcessOutcome = ProcessOutcome(result: Result<Processed, Error>, state: EngineState)

  function Process(env: Env, st: EngineState, g: Game, proj: Projection): (r: ProcessOutcome)
    requires ValidEnv(env) && g.homeTeam in st.currentElos && g.awayTeam in st.currentElos
    ensures r.result.Err? ==> r.state == st
  {
    match ProcessValues(env, g, proj)
    case Err(e) => ProcessOutcome(Err(e), st)
    case Ok(v) =>
      var elos := ElosAfter(env.params, st.currentElos, g, proj, v);
      ProcessOutcome(Ok(v), st.(currentElos := elos,
                                yearlyElos := YearlyAfter(st.yearlyElos, g, v),
                                eloRecords := st.eloRecords + [elos[g.homeTeam]] + [elos[g.awayTeam]]))
  }

  /** A span of -1 makes process_game raise ZeroDivisionError, and nothing
      is written: a played game whose shifts are computable fails with
      exactly that error. */
  lemma SpanOfMinusOneRaises(env: Env, st: EngineState, g: Game, proj: Projection)
    requires ValidEnv(env) && g.homeTeam in st.currentElos && g.awayTeam in st.currentElos
    requires env.params.nfeloSpan == -1.0 || env.params.seSpan == -1.0
    requires g.homeMargin.Some? && g.awayMargin.Some?
    requires SideShift(env, HomeObservations(env.params, g), proj.lineBase, g, true).Ok?
    requires SideShift(env, AwayObservations(env.params, g), proj.lineBase, g, false).Ok?
    ensures Process(env, st, g, proj) == ProcessOutcome(Err(ZeroDivision), st)
  {
    assert !SpansUsable(env.params);
  }

  /** The state a processed game leaves, spelled out. */
  lemma ProcessOk(env: Env, st: EngineState, g: Game, proj: Projection)
    requires ValidEnv(env) && g.homeTeam in st.currentElos && g.awayTeam in st.currentElos
    requires ProcessValues(env, g, proj).Ok?
    ensures var v := ProcessValues(env, g, proj).value;
            var elos := ElosAfter(env.params, st.currentElos, g, proj, v);
            Process(env, st, g, proj) == ProcessOutcome(Ok(v), EngineState(
              elos, YearlyAfter(st.yearlyElos, g, v), st.reversionRecords,
              st.eloRecords + [elos[g.homeTeam]] + [elos[g.awayTeam]]))
  {
  }

  /** A processed game appends exactly two snapshots, home then away, keeps
      the set of rated teams, and touches no team but the two playing. */
  lemma ProcessBookkeeping(env: Env, st: EngineState, g: Game, proj: Projection)
    requires ValidEnv(env) && g.homeTeam in st.currentElos && g.awayTeam in st.currentElos
    requires Process(env, st, g, proj).result.Ok?
    ensures var s := Process(env, st, g, proj).state;
            |s.eloRecords| == |st.eloRecords| + 2 &&
            s.eloRecords[..|st.eloRecords|] == st.eloRecords &&
            s.eloRecords[|st.eloRecords|] == s.currentElos[g.homeTeam] &&
            s.eloRecords[|st.eloRecords| + 1] == s.currentElos[g.awayTeam] &&
            s.currentElos.Keys == st.currentElos.Keys &&
            s.reversionRecords == st.reversionRecords &&
            (forall t :: t in st.currentElos && t != g.homeTeam && t != g.awayTeam ==>
               s.currentElos[t] == st.currentElos[t])
  {
  }

  /** A team's rating after a game is its starting rating plus its weighted
      shift, computed from its own observations against the unregressed
      line; its rolling values are moved and averaged. */
  lemma ProcessRatings(env: Env, st: EngineState, g: Game, proj: Projection)
    requires ValidEnv(env) && g.homeTeam in st.currentElos && g.awayTeam in st.currentElos
    requires g.homeTeam != g.awayTeam
    requires Process(env, st, g, proj).result.Ok?
    ensures var v := Process(env, st, g, proj).result.value;
            var s := Process(env, st, g, proj).state.currentElos;
            var p := env.params;
            ES.WeightedAvg(ES.ShiftPairs(env.m, HomeObservations(p, g), proj.lineBase, g.homeLineClose,
                                         p.k, p.b, p.marketResistFactor, true)) == Ok(v.shiftHome) &&
            ES.WeightedAvg(ES.ShiftPairs(env.m, AwayObservations(p, g), proj.lineBase, g.homeLineClose,
                                         p.k, p.b, p.marketResistFactor, false)) == Ok(v.shiftAway) &&
            s[g.homeTeam].endingNfelo == proj.startingHome + v.shiftHome &&
            s[g.awayTeam].endingNfelo == proj.startingAway + v.shiftAway &&
            s[g.homeTeam].startingModelSe == st.currentElos[g.homeTeam].endingModelSe &&
            s[g.awayTeam].startingModelSe == st.currentElos[g.awayTeam].endingModelSe &&
            s[g.homeTeam].endingModelSe == Ema(st.currentElos[g.homeTeam].endingModelSe, v.seModel, Alpha(p.seSpan)) &&
            s[g.awayTeam].endingModelSe == Ema(st.currentElos[g.awayTeam].endingModelSe, v.seModel, Alpha(p.seSpan)) &&
            s[g.homeTeam].endingNfeloAdj == Ema(st.currentElos[g.homeTeam].endingNfeloAdj, v.shiftHome, Alpha(p.nfeloSpan)) &&
            s[g.awayTeam].endingNfeloAdj == Ema(st.currentElos[g.awayTeam].endingNfeloAdj, v.shiftAway, Alpha(p.nfeloSpan)) &&
            v.seModel == SeAsWritten(g.homeMargin.value, proj.lineBase) &&
            v.seMarket == SeAsWritten(g.homeMargin.value, g.homeLineClose)
  {
  }

  // -------------------------------------------------------------------
  // apply_nfelo and run

  /** An output row: the game, its projection and its post-game values. */
  datatype GameRow = GameRow(game: Game, projection: Projection, processed: Processed)

  datatype StepOutcome = StepOutcome(result: Result<GameRow, Error>, state: EngineState)

  /** apply_nfelo: project, then process. */
  function Apply(env: Env, st: EngineState, g: Game): (r: StepOutcome)
    requires ValidEnv(env)
  {
    var po := Project(env, st, g);
    var st1 := st.(reversionRecords := st.reversionRecords + po.reversions);
    match po.result
    case Err(e) => StepOutcome(Err(e), st1)
    case Ok(proj) =>
      var pr := Process(env, st1, g, proj);
      match pr.result
      case Err(e) => StepOutcome(Err(e), pr.state)
      case Ok(v) => StepOutcome(Ok(GameRow(g, proj, v)), pr.state)
  }

  /** The rows run applies: every game up to the last completed week of the
      last completed season, and every game of earlier seasons. */
  predicate IsPlayed(g: Game, lastWeek: int, lastSeason: int) {
    (g.week <= lastWeek && g.season == lastSeason) || g.season < lastSeason
  }

  function Played(games: seq<Game>, lastWeek: int, lastSeason: int): (r: seq<Game>)
    ensures |r| <= |games|
    ensures forall g :: g in r <==> g in games && IsPlayed(g, lastWeek, lastSeason)
  {
    if |games| == 0 then []
    else
      var rest := Played(games[..|games| - 1], lastWeek, lastSeason);
      var g := games[|games| - 1];
      if IsPlayed(g, lastWeek, lastSeason) then rest + [g] else rest
  }

  datatype RunOutcome = RunOutcome(result: Result<seq<GameRow>, Error>, state: EngineState)

  /** Apply the games in order, stopping at the first exception with the
      state as it was left. */
  function RunGames(env: Env, st: EngineState, games: seq<Game>): (r: RunOutcome)
    requires ValidEnv(env)
    ensures r.result.Ok? ==> |r.result.value| == |games|
  {
    if |games| == 0 then RunOutcome(Ok([]), st)
    else
      var prev := RunGames(env, st, games[..|games| - 1]);
      match prev.result
      case Err(e) => prev
      case Ok(rows) =>
        var step := Apply(env, prev.state, games[|games| - 1]);
        match step.result
        case Err(e) => RunOutcome(Err(e), step.state)
        case Ok(row) => RunOutcome(Ok(rows + [row]), step.state)
  }

  /** project_week: the projections of a list of games, stopping at the
      first exception, and the reversion records held once the projections
      have appended theirs.  Nothing else in the state is read as changing. */
  datatype WeekOutcome = WeekOutcome(result: Result<seq<Projection>, Error>, records: seq<ReversionRecord>)

  function ProjectGames(env: Env, st: EngineState, games: seq<Game>): (r: WeekOutcome)
    requires ValidEnv(env)
    ensures r.result.Ok? ==> |r.result.value| == |games|
  {
    if |games| == 0 then WeekOutcome(Ok([]), st.reversionRecords)
    else
      var prev := ProjectGames(env, st, games[..|games| - 1]);
      match prev.result
      case Err(e) => prev
      case Ok(ps) =>
        var po := Project(env, st.(reversionRecords := prev.records), games[|games| - 1]);
        WeekOutcome(if po.result.Ok? then Ok(ps + [po.result.value]) else Err(po.result.error),
                    prev.records + po.reversions)
  }

  /** Projection reads the rating table and the yearly ratings but not the
      reversion records, so a week's projections are each game's projection
      against the same state. */
  lemma {:induction false} ProjectGamesIndependent(env: Env, st: EngineState, games: seq<Game>)
    requires ValidEnv(env)
    requires ProjectGames(env, st, games).result.Ok?
    ensures forall i :: 0 <= i < |games| ==>
      Project(env, st, games[i]).result == Ok(ProjectGames(env, st, games).result.value[i])
  {
    if |games| > 0 {
      var prev := ProjectGames(env, st, games[..|games| - 1]);
      ProjectGamesIndependent(env, st, games[..|games| - 1]);
      var st1 := st.(reversionRecords := prev.records);
      assert Project(env, st1, games[|games| - 1]).result == Project(env, st, games[|games| - 1]).result;
      forall i | 0 <= i < |games| - 1
        ensures Project(env, st, games[i]).result == Ok(ProjectGames(env, st, games).result.value[i])
      {
        assert games[i] == games[..|games| - 1][i];
      }
    }
  }

  // -------------------------------------------------------------------
  // the constructor's inputs

  /** The rows of the first rated season onwards, in order. */
  function FromFirstSeason(games: seq<Game>): (r: seq<Game>)
    ensures |r| <= |games|
    ensures forall g :: g in r <==> g in games && g.season >= FirstSeason
  {
    if |games| == 0 then []
    else
      var rest := FromFirstSeason(games[..|games| - 1]);
      var g := games[|games| - 1];
      if g.season >= FirstSeason then rest + [g] else rest
  }

  /** `unique()`: the values in order of first appearance. */
  function Unique(s: seq<string>): (r: seq<string>)
    ensures forall x :: x in r <==> x in s
    ensures forall i, j :: 0 <= i < j < |r| ==> r[i] != r[j]
  {
    if |s| == 0 then []
    else
      var rest := Unique(s[..|s| - 1]);
      if s[|s| - 1] in rest then rest else rest + [s[|s| - 1]]
  }

  function HomeTeams(games: seq<Game>): (r: seq<string>)
    ensures |r| == |games|
    ensures forall i :: 0 <= i < |games| ==> r[i] == games[i].homeTeam
  {
    if |games| == 0 then [] else HomeTeams(games[..|games| - 1]) + [games[|games| - 1].homeTeam]
  }

  /** One more game extends a run that has not raised. */
  lemma RunGamesStep(env: Env, st: EngineState, games: seq<Game>, i: nat, rows: seq<GameRow>, mid: EngineState)
    requires ValidEnv(env) && i < |games|
    requires RunGames(env, st, games[..i]) == RunOutcome(Ok(rows), mid)
    ensures var step := Apply(env, mid, games[i]);
            RunGames(env, st, games[..i + 1])
              == RunOutcome(if step.result.Ok? then Ok(rows + [step.result.value]) else Err(step.result.error), step.state)
  {
    assert games[..i + 1][..i] == games[..i];
  }

  /** After the first exception a run applies no further game. */
  lemma {:induction false} RunGamesStopsAtError(env: Env, st: EngineState, games: seq<Game>, i: nat)
    requires ValidEnv(env) && i <= |games|
    requires RunGames(env, st, games[..i]).result.Err?
    ensures RunGames(env, st, games) == RunGames(env, st, games[..i])
  {
    if i < |games| {
      var pre := games[..|games| - 1];
      assert pre[..i] == games[..i];
      RunGamesStopsAtError(env, st, pre, i);
    } else {
      assert games[..i] == games;
    }
  }

  /** One more game extends a week's projections that have not raised. */
  lemma ProjectGamesStep(env: Env, st: EngineState, games: seq<Game>, i: nat, ps: seq<Projection>)
    requires ValidEnv(env) && i < |games|
    requires ProjectGames(env, st, games[..i]).result == Ok(ps)
    ensures var prev := ProjectGames(env, st, games[..i]);
            var po := Project(env, st.(reversionRecords := prev.records), games[i]);
            ProjectGames(env, st, games[..i + 1])
              == WeekOutcome(if po.result.Ok? then Ok(ps + [po.result.value]) else Err(po.result.error),
                             prev.records + po.reversions)
  {
    assert games[..i + 1][..i] == games[..i];
  }

  /** After the first exception no further game of the week is projected. */
  lemma {:induction false} ProjectGamesStopsAtError(env: Env, st: EngineState, games: seq<Game>, i: nat)
    requires ValidEnv(env) && i <= |games|
    requires ProjectGames(env, st, games[..i]).result.Err?
    ensures ProjectGames(env, st, games) == ProjectGames(env, st, games[..i])
  {
    if i < |games| {
      var pre := games[..|games| - 1];
      assert pre[..i] == games[..i];
      ProjectGamesStopsAtError(env, st, pre, i);
    } else {
      assert games[..i] == games;
    }
  }

  /** Running a sequence of games appends exactly two snapshots per game. */
  lemma {:induction false} RunAppendsTwoPerGame(env: Env, st: EngineState, games: seq<Game>)
    requires ValidEnv(env)
    requires RunGames(env, st, games).result.Ok?
    ensures |RunGames(env, st, games).state.eloRecords| == |st.eloRecords| + 2 * |games|
    ensures RunGames(env, st, games).state.currentElos.Keys == st.currentElos.Keys
  {
    if |games| > 0 {
      var prev := RunGames(env, st, games[..|games| - 1]);
      RunAppendsTwoPerGame(env, st, games[..|games| - 1]);
      var g := games[|games| - 1];
      var po := Project(env, prev.state, g);
      var st1 := prev.state.(reversionRecords := prev.state.reversionRecords + po.reversions);
      ProcessBookkeeping(env, st1, g, po.result.value);
    }
  }
}
