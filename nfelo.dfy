/** The rating engine as an object (nfelo/Model/Nfelo.py, class `Nfelo`):
    its fields are updated in place game by game, and each method is proved
    to leave the state the rules in module `NfeloRules` describe. */
module Model {
  import opened Wrappers
  import opened Numerics
  import ST = SpreadTranslation
  import ES = EloShift
  import CoverProbability
  import opened NfeloRules

  class Nfelo {
    // the loaded data and the fixed inputs
    const m: Math
    const spreadTable: ST.Table
    const dist: seq<CoverProbability.DistRow>
    const data: seq<Game>
    const lastCompletedWeek: int
    const lastCompletedSeason: int
    const initialElos: map<string, real>
    const teams: seq<string>

    // the mutable state
    var config: Params
    var currentFile: seq<Game>
    var currentElos: map<string, TeamState>
    var yearlyElos: map<int, seq<real>>
    var reversionRecords: seq<ReversionRecord>
    var eloRecords: seq<TeamState>
    var updatedFile: Option<seq<GameRow>>

    /** The configuration holds every key with usable values, every team has
        an initial rating, and the spread table is well formed. */
    predicate Valid()
      reads this`config
    {
      ValidParams(config) && ST.ValidTable(spreadTable) &&
      (forall t :: t in teams ==> t in initialElos)
    }

    function Environment(): (e: Env)
      requires Valid()
      reads this`config
      ensures ValidEnv(e)
    {
      Env(m, spreadTable, dist, config)
    }

    function State(): EngineState
      reads this`currentElos, this`yearlyElos, this`reversionRecords, this`eloRecords
    {
      EngineState(currentElos, yearlyElos, reversionRecords, eloRecords)
    }

    /** A model over the rows from 2009 on, rating every team that appears
        as a home team. */
    constructor (m: Math, spreadTable: ST.Table, dist: seq<CoverProbability.DistRow>, data: seq<Game>,
                 lastCompletedWeek: int, lastCompletedSeason: int,
                 config: Params, initialElos: map<string, real>)
      requires ValidParams(config) && ST.ValidTable(spreadTable)
      requires forall t :: t in Unique(HomeTeams(FromFirstSeason(data))) ==> t in initialElos
      ensures Valid()
      ensures this.m == m && this.spreadTable == spreadTable && this.dist == dist && this.data == data
      ensures this.lastCompletedWeek == lastCompletedWeek && this.lastCompletedSeason == lastCompletedSeason
      ensures this.config == config && this.initialElos == initialElos
      ensures currentFile == FromFirstSeason(data)
      ensures teams == Unique(HomeTeams(currentFile))
      ensures currentElos == InitialElos(teams, initialElos)
      ensures yearlyElos == map[] && reversionRecords == [] && eloRecords == [] && updatedFile.None?
    {
      this.m := m;
      this.spreadTable := spreadTable;
      this.dist := dist;
      this.data := data;
      this.lastCompletedWeek := lastCompletedWeek;
      this.lastCompletedSeason := lastCompletedSeason;
      this.config := config;
      this.initialElos := initialElos;
      this.teams := Unique(HomeTeams(FromFirstSeason(data)));
      new;
      ResetState();
    }

    /** init_elos as its loop runs: the first team without an initial
        rating, which raises the KeyError, or none. */
    static method CheckInitialElos(teams: seq<string>, initialElos: map<string, real>) returns (missing: Option<string>)
      ensures missing == FirstMissing(teams, initialElos)
    {
      for i := 0 to |teams|
        invariant FirstMissing(teams, initialElos) == FirstMissing(teams[i..], initialElos)
      {
        assert teams[i..][1..] == teams[i + 1..];
        if teams[i] !in initialElos {
          return Some(teams[i]);
        }
      }
      return None;
    }

    /** init_elos: a week-0 snapshot for every team, built team by team. */
    method InitElos() returns (r: map<string, TeamState>)
      requires forall t :: t in teams ==> t in initialElos
      ensures r == InitialElos(teams, initialElos)
    {
      r := map[];
      for i := 0 to |teams|
        invariant r == InitialElos(teams[..i], initialElos)
      {
        assert teams[..i + 1] == teams[..i] + [teams[i]];
        r := r[teams[i] := FreshSnapshot(teams[i], initialElos[teams[i]])];
      }
      assert teams[..|teams|] == teams;
    }

    /** project_game: the projection of one game from the current ratings.
        It never writes the rating table; its loop over the two sides
        appends the reversion record of each side it regresses. */
    method ProjectGame(g: Game) returns (r: Result<Projection, Error>)
      requires Valid()
      modifies this`reversionRecords
      ensures r == Project(Environment(), old(State()), g).result
      ensures reversionRecords == old(reversionRecords) + Project(Environment(), old(State()), g).reversions
    {
      if g.homeTeam !in currentElos {
        return Err(KeyMissing(g.homeTeam));
      }
      if g.awayTeam !in currentElos {
        return Err(KeyMissing(g.awayTeam));
      }
      var start := StartSides(g);
      if start.Err? {
        return Err(start.error);
      }
      r := ProjectFromStart(Environment(), currentElos, g, start.value.home, start.value.away);
    }

    /** project_game's loop over the home and the away side: each pass
        regresses its side's start where it must and appends the record. */
    method StartSides(g: Game) returns (r: Result<Start, Error>)
      requires Valid() && g.homeTeam in currentElos && g.awayTeam in currentElos
      modifies this`reversionRecords
      ensures var out := Project(Environment(), old(State()), g);
              if r.Ok? then
                out == ProjectSides(Environment(), currentElos, yearlyElos, g, [], r.value) &&
                reversionRecords == old(reversionRecords) + r.value.reversions
              else
                out.result == Err(r.error) && reversionRecords == old(reversionRecords) + out.reversions
    {
      ghost var env := Environment();
      ghost var out := Project(env, State(), g);
      var elos := currentElos;
      var yearly := yearlyElos;
      var sides := [HomeSide, AwaySide];
      var s := Start(elos[g.homeTeam].endingNfelo, elos[g.awayTeam].endingNfelo, []);
      assert sides[0..] == sides;
      for i := 0 to |sides|
        invariant ProjectSides(env, elos, yearly, g, sides[i..], s) == out
        invariant reversionRecords == old(reversionRecords) + s.reversions
      {
        var side := sides[i];
        var rv := RevertSide(config, yearly, g, side, if side == HomeSide then s.home else s.away);
        if rv.Err? {
          return Err(rv.error);
        }
        assert sides[i..][1..] == sides[i + 1..];
        ghost var before := s.reversions;
        reversionRecords := reversionRecords + RecordsOf(rv.value);
        s := Advanced(s, side, rv.value);
        assert reversionRecords == old(reversionRecords) + (before + RecordsOf(rv.value));
      }
      assert sides[|sides|..] == [];
      r := Ok(s);
    }

    /** process_game: the post-game values and the in-place update of both
        teams' snapshots, written in the source's order. */
    method ProcessGame(g: Game, proj: Projection) returns (r: Result<Processed, Error>)
      requires Valid() && g.homeTeam in currentElos && g.awayTeam in currentElos
      modifies this`currentElos, this`yearlyElos, this`eloRecords
      ensures r == ProcessValues(Environment(), g, proj)
      ensures r.Err? ==> State() == old(State())
      ensures r.Ok? ==>
        var elos := ElosAfter(Environment().params, old(currentElos), g, proj, r.value);
        State() == EngineState(elos, YearlyAfter(old(yearlyElos), g, r.value), old(reversionRecords),
                               old(eloRecords) + [elos[g.homeTeam]] + [elos[g.awayTeam]])
    {
      var v := ProcessValues(Environment(), g, proj);
      if v.Err? {
        return Err(v.error);
      }
      WriteGame(Environment().params, g, proj, v.value);
      r := v;
    }

    /** The writes of process_game once its values are computed: both
        teams' blocks, their two snapshots, and the week-17 ratings. */
    method WriteGame(p: Params, g: Game, proj: Projection, v: Processed)
      requires SpansUsable(p) && g.homeTeam in currentElos && g.awayTeam in currentElos
      modifies this`currentElos, this`yearlyElos, this`eloRecords
      ensures var elos := ElosAfter(p, old(currentElos), g, proj, v);
              currentElos == elos && yearlyElos == YearlyAfter(old(yearlyElos), g, v) &&
              eloRecords == old(eloRecords) + [elos[g.homeTeam]] + [elos[g.awayTeam]]
    {
      WriteHome(p, g, proj, v);
      WriteAway(p, g, proj, v);
      eloRecords := eloRecords + [currentElos[g.homeTeam]];
      eloRecords := eloRecords + [currentElos[g.awayTeam]];
      RecordYearly(g, v);
    }

    /** The home block: basics, opponent, ratings, rolling values. */
    method WriteHome(p: Params, g: Game, proj: Projection, v: Processed)
      requires SpansUsable(p) && g.homeTeam in currentElos
      modifies this`currentElos
      ensures currentElos == HomeWrites(p, old(currentElos), g, proj, v)
    {
      var ht := g.homeTeam;
      WriteBasics(ht, g);
      currentElos := currentElos[ht := currentElos[ht].(opponent := Some(g.awayTeam))];
      WriteRating(ht, proj.startingHome, v.endingHome);
      RollValues(ht, p, v.shiftHome, v.seModel, v.seMarket);
    }

    /** The away block, whose opponent line writes the home team's snapshot. */
    method WriteAway(p: Params, g: Game, proj: Projection, v: Processed)
      requires SpansUsable(p) && g.homeTeam in currentElos && g.awayTeam in currentElos
      modifies this`currentElos
      ensures currentElos == AwayWrites(p, old(currentElos), g, proj, v)
    {
      var ht := g.homeTeam;
      var at := g.awayTeam;
      WriteBasics(at, g);
      currentElos := currentElos[ht := currentElos[ht].(opponent := Some(ht))];
      WriteRating(at, proj.startingAway, v.endingAway);
      RollValues(at, p, v.shiftAway, v.seModel, v.seMarket);
    }

    /** In week 17 both ending ratings join the season's list. */
    method RecordYearly(g: Game, v: Processed)
      modifies this`yearlyElos
      ensures yearlyElos == YearlyAfter(old(yearlyElos), g, v)
    {
      if g.week == 17 {
        if g.season !in yearlyElos {
          yearlyElos := yearlyElos[g.season := []];
        }
        yearlyElos := yearlyElos[g.season := yearlyElos[g.season] + [v.endingHome]];
        yearlyElos := yearlyElos[g.season := yearlyElos[g.season] + [v.endingAway]];
      }
    }

    /** The "basic" block: season, week and game id. */
    method WriteBasics(t: string, g: Game)
      requires t in currentElos
      modifies this`currentElos
      ensures currentElos == old(currentElos)[t := Basics(old(currentElos)[t], g)]
    {
      var s := currentElos[t];
      s := s.(season := g.season);
      s := s.(week := g.week);
      s := s.(gameId := Some(g.gameId));
      currentElos := currentElos[t := s];
    }

    /** The starting and ending ratings. */
    method WriteRating(t: string, start: real, ending: real)
      requires t in currentElos
      modifies this`currentElos
      ensures currentElos == old(currentElos)[t := Rated(old(currentElos)[t], start, ending)]
    {
      var s := currentElos[t];
      s := s.(startingNfelo := Some(start));
      s := s.(endingNfelo := ending);
      currentElos := currentElos[t := s];
    }

    /** The "reset rolling info" and "update" blocks. */
    method RollValues(t: string, p: Params, shift: real, seModel: real, seMarket: real)
      requires t in currentElos && SpansUsable(p)
      modifies this`currentElos
      ensures currentElos == old(currentElos)[t := Rolled(old(currentElos)[t], p, shift, seModel, seMarket)]
    {
      var adjAlpha := Alpha(p.nfeloSpan);
      var seAlpha := Alpha(p.seSpan);
      var s := currentElos[t];
      s := s.(startingNfeloAdj := s.endingNfeloAdj);
      s := s.(startingModelSe := s.endingModelSe);
      s := s.(startingMarketSe := s.endingMarketSe);
      s := s.(endingNfeloAdj := Ema(s.startingNfeloAdj, shift, adjAlpha));
      s := s.(endingModelSe := Ema(s.startingModelSe, seModel, seAlpha));
      s := s.(endingMarketSe := Ema(s.startingMarketSe, seMarket, seAlpha));
      currentElos := currentElos[t := s];
    }

    /** apply_nfelo: project the game, then process it. */
    method ApplyNfelo(g: Game) returns (r: Result<GameRow, Error>)
      requires Valid()
      modifies this`currentElos, this`yearlyElos, this`reversionRecords, this`eloRecords
      ensures r == Apply(Environment(), old(State()), g).result
      ensures State() == Apply(Environment(), old(State()), g).state
    {
      var proj := ProjectGame(g);
      assert State() == old(State()).(reversionRecords := reversionRecords);
      if proj.Err? {
        return Err(proj.error);
      }
      ghost var mid := State();
      var v := ProcessGame(g, proj.value);
      if ProcessValues(Environment(), g, proj.value).Ok? {
        ProcessOk(Environment(), mid, g, proj.value);
      }
      if v.Err? {
        return Err(v.error);
      }
      r := Ok(GameRow(g, proj.value, v.value));
    }

    /** run: apply every played game in order; the output rows are kept only
        when no game raised. */
    method Run() returns (r: Result<seq<GameRow>, Error>)
      requires Valid()
      modifies this`currentElos, this`yearlyElos, this`reversionRecords, this`eloRecords, this`updatedFile
      ensures var out := RunGames(Environment(), old(State()), Played(currentFile, lastCompletedWeek, lastCompletedSeason));
              r == out.result && State() == out.state
      ensures r.Ok? ==> updatedFile == Some(r.value)
      ensures r.Err? ==> updatedFile == old(updatedFile)
    {
      var played := Played(currentFile, lastCompletedWeek, lastCompletedSeason);
      r := RunAll(Environment(), State(), played);
      if r.Ok? {
        updatedFile := Some(r.value);
      }
    }

    /** run's loop over the played games, stopping at the first exception. */
    method RunAll(ghost env: Env, ghost st: EngineState, played: seq<Game>) returns (r: Result<seq<GameRow>, Error>)
      requires Valid() && env == Environment() && st == State()
      modifies this`currentElos, this`yearlyElos, this`reversionRecords, this`eloRecords
      ensures RunGames(env, st, played) == RunOutcome(r, State())
    {
      var rows: seq<GameRow> := [];
      for i := 0 to |played|
        invariant RunGames(env, st, played[..i]) == RunOutcome(Ok(rows), State())
      {
        var row := RunNext(env, st, played, i, rows);
        if row.Err? {
          RunGamesStopsAtError(env, st, played, i + 1);
          return Err(row.error);
        }
        rows := rows + [row.value];
      }
      assert played[..|played|] == played;
      r := Ok(rows);
    }

    /** One pass of run's loop: apply the next played game. */
    method RunNext(ghost env: Env, ghost st: EngineState, played: seq<Game>, i: nat, rows: seq<GameRow>)
      returns (row: Result<GameRow, Error>)
      requires Valid() && env == Environment() && i < |played|
      requires RunGames(env, st, played[..i]) == RunOutcome(Ok(rows), State())
      modifies this`currentElos, this`yearlyElos, this`reversionRecords, this`eloRecords
      ensures RunGames(env, st, played[..i + 1])
        == RunOutcome(if row.Ok? then Ok(rows + [row.value]) else Err(row.error), State())
    {
      RunGamesStep(env, st, played, i, rows, State());
      row := ApplyNfelo(played[i]);
    }

    /** update_config: merge the new values into the configuration and reset
        every piece of state to what the constructor built. */
    method UpdateConfig(newConfig: map<ConfigKey, real>)
      requires Valid() && ValidParams(Merge(config, newConfig))
      modifies this`config, this`currentFile, this`currentElos, this`yearlyElos, this`reversionRecords,
               this`eloRecords, this`updatedFile
      ensures config == Merge(old(config), newConfig)
      ensures Valid()
      ensures currentFile == FromFirstSeason(data)
      ensures currentElos == InitialElos(teams, initialElos)
      ensures yearlyElos == map[] && reversionRecords == [] && eloRecords == [] && updatedFile.None?
    {
      MergeConfig(newConfig);
      ResetState();
    }

    /** The merge loop of update_config: each new value overwrites its key. */
    method MergeConfig(newConfig: map<ConfigKey, real>)
      modifies this`config
      ensures config == Merge(old(config), newConfig)
    {
      var rest := newConfig.Keys;
      ghost var done: map<ConfigKey, real> := map[];
      while rest != {}
        invariant rest <= newConfig.Keys
        invariant done.Keys == newConfig.Keys - rest
        invariant forall k :: k in done ==> done[k] == newConfig[k]
        invariant forall key :: Get(config, key) == if key in done then done[key] else Get(old(config), key)
        decreases rest
      {
        var k :| k in rest;
        config := Set(config, k, newConfig[k]);
        done := done[k := newConfig[k]];
        rest := rest - {k};
      }
      assert done == newConfig;
      forall key
        ensures Get(config, key) == Get(Merge(old(config), newConfig), key)
      {
        MergeGet(old(config), newConfig, key);
      }
      ParamsExtensional(config, Merge(old(config), newConfig));
    }

    /** The state a fresh model starts from: the rows from the first rated
        season on, week-0 snapshots and no history. */
    method ResetState()
      requires forall t :: t in teams ==> t in initialElos
      modifies this`currentFile, this`currentElos, this`yearlyElos, this`reversionRecords, this`eloRecords,
               this`updatedFile
      ensures currentFile == FromFirstSeason(data)
      ensures currentElos == InitialElos(teams, initialElos)
      ensures yearlyElos == map[] && reversionRecords == [] && eloRecords == [] && updatedFile.None?
    {
      currentFile := FromFirstSeason(data);
      currentElos := InitElos();
      yearlyElos := map[];
      reversionRecords := [];
      eloRecords := [];
      updatedFile := None;
    }

    /** project_week: project each game from the current ratings.  The
        rating table, the yearly ratings and the snapshot records are left
        as they were; only reversion records are appended. */
    method ProjectWeek(games: seq<Game>) returns (r: Result<seq<Projection>, Error>)
      requires Valid()
      modifies this`reversionRecords
      ensures r == ProjectGames(Environment(), old(State()), games).result
      ensures reversionRecords == ProjectGames(Environment(), old(State()), games).records
    {
      ghost var env := Environment();
      ghost var st := State();
      var ps: seq<Projection> := [];
      for i := 0 to |games|
        invariant var w := ProjectGames(env, st, games[..i]);
                  w.result == Ok(ps) && reversionRecords == w.records
      {
        var p := ProjectNext(env, st, games, i, ps);
        if p.Err? {
          ProjectGamesStopsAtError(env, st, games, i + 1);
          return Err(p.error);
        }
        ps := ps + [p.value];
      }
      assert games[..|games|] == games;
      r := Ok(ps);
    }

    /** One pass of project_week's loop: the next game's projection. */
    method ProjectNext(ghost env: Env, ghost st: EngineState, games: seq<Game>, i: nat, ps: seq<Projection>)
      returns (p: Result<Projection, Error>)
      requires Valid() && env == Environment() && i < |games|
      requires var w := ProjectGames(env, st, games[..i]);
               w.result == Ok(ps) && State() == st.(reversionRecords := w.records)
      modifies this`reversionRecords
      ensures var w := ProjectGames(env, st, games[..i + 1]);
              w.result == (if p.Ok? then Ok(ps + [p.value]) else Err(p.error)) && reversionRecords == w.records
    {
      ProjectGamesStep(env, st, games, i, ps);
      p := ProjectGame(games[i]);
    }
  }

  /** Nfelo(...): the engine, or the KeyError init_elos raises for the first
      home team without an initial rating. */
  method NewNfelo(m: Math, spreadTable: ST.Table, dist: seq<CoverProbability.DistRow>, data: seq<Game>,
                  lastCompletedWeek: int, lastCompletedSeason: int,
                  config: Params, initialElos: map<string, real>) returns (r: Result<Nfelo, Error>)
    requires ValidParams(config) && ST.ValidTable(spreadTable)
    ensures var teams := Unique(HomeTeams(FromFirstSeason(data)));
            r.Err? <==> exists t :: t in teams && t !in initialElos
    ensures var missing := FirstMissing(Unique(HomeTeams(FromFirstSeason(data))), initialElos);
            r.Err? ==> missing.Some? && r.error == KeyMissing(missing.value)
    ensures r.Ok? ==> fresh(r.value) && r.value.Valid() && r.value.data == data && r.value.config == config
                      && r.value.initialElos == initialElos
                      && r.value.currentFile == FromFirstSeason(data)
                      && r.value.teams == Unique(HomeTeams(FromFirstSeason(data)))
                      && r.value.currentElos == InitialElos(r.value.teams, initialElos)
                      && r.value.yearlyElos == map[] && r.value.reversionRecords == []
                      && r.value.eloRecords == [] && r.value.updatedFile.None?
  {
    var missing := Nfelo.CheckInitialElos(Unique(HomeTeams(FromFirstSeason(data))), initialElos);
    if missing.Some? {
      return Err(KeyMissing(missing.value));
    }
    var e := new Nfelo(m, spreadTable, dist, data, lastCompletedWeek, lastCompletedSeason, config, initialElos);
    r := Ok(e);
  }
}
