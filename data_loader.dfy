/** Row-level derivations of the data loader (nfelo/Data/DataLoader.py):
    line fills and implied probabilities of the market data, game typing
    and margins, film-margin fallbacks, home-field modifiers, quarterback
    fills and per-team game numbering.  A frame is a sequence of row
    records; each derivation maps every row. */
module DataLoader {
  import opened Wrappers
  import opened Numerics
  import ST = SpreadTranslation
  import Odds

  // ---------------------------------------------------------------------
  // format_market_data

  /** The market columns the derivations read; NaN is `None`. */
  datatype Quote = Quote(
    lineOpen: Option<real>, lineClose: Option<real>,
    homeMlOpen: Option<int>, awayMlOpen: Option<int>,
    homeMlClose: Option<int>, awayMlClose: Option<int>)

  /** The derived market columns: filled lines, implied probabilities
      and implied rating differences, at the open and at the close. */
  datatype MarketRow = MarketRow(
    lineOpen: real, lineClose: real,
    homeProbOpen: Option<real>, awayProbOpen: Option<real>,
    homeProbClose: Option<real>, awayProbClose: Option<real>,
    eloDifOpen: Option<real>, eloDifClose: Option<real>)

  /** The hold-adjusted moneyline probabilities of one pair of prices;
      NaN when a price is missing or the implied shares do not divide. */
  function MoneylineImplied(home: Option<int>, away: Option<int>): (r: Option<Odds.HoldAdjusted>)
    ensures r.Some? ==> r.value.home + r.value.away == 1.0
    ensures r.Some? <==> home.Some? && away.Some? && Odds.AmericanToHoldAdjProb(home.value, away.value).Ok?
  {
    if home.None? || away.None? then None
    else
      var adj := Odds.AmericanToHoldAdjProb(home.value, away.value);
      if adj.Err? then None else Some(adj.value)
  }

  /** The home probability: spread-implied first, the moneyline's as the
      fallback (`combine_first`). */
  function ImpliedHome(t: ST.Table, line: real, ml: Option<Odds.HoldAdjusted>): Option<real>
    requires ST.ValidTable(t)
  {
    CombineFirst(ST.SpreadToProbabilityVector(t, line), if ml.Some? then Some(ml.value.home) else None)
  }

  /** `1 - p` over a column with NaN. */
  function Complement(p: Option<real>): (r: Option<real>)
    ensures r.Some? <==> p.Some?
    ensures r.Some? ==> p.value + r.value == 1.0
  {
    if p.Some? then Some(1.0 - p.value) else None
  }

  /** prob_to_elo over a column: NaN stays NaN; a zero probability makes
      `1 / p` infinite, which the model counts as NaN. */
  function ImpliedEloDif(m: Math, p: Option<real>): (r: Option<real>)
    ensures r.Some? <==> p.Some? && p.value != 0.0
    ensures r.Some? ==> Odds.ProbToElo(m, p.value, 400.0) == Ok(r.value)
  {
    if p.None? then None
    else
      var d := Odds.ProbToElo(m, p.value, 400.0);
      if d.Err? then None else Some(d.value)
  }

  /** One row of format_market_data. */
  function FormatMarketRow(t: ST.Table, m: Math, q: Quote): MarketRow
    requires ST.ValidTable(t)
  {
    var close := q.lineClose.GetOr(0.0);
    var open := q.lineOpen.GetOr(close);
    var homeOpen := ImpliedHome(t, open, MoneylineImplied(q.homeMlOpen, q.awayMlOpen));
    var homeClose := ImpliedHome(t, close, MoneylineImplied(q.homeMlClose, q.awayMlClose));
    MarketRow(open, close, homeOpen, Complement(homeOpen), homeClose, Complement(homeClose),
              ImpliedEloDif(m, homeOpen), ImpliedEloDif(m, homeClose))
  }

  /** format_market_data over the whole frame, row by row. */
  function FormatMarketData(t: ST.Table, m: Math, quotes: seq<Quote>): (r: seq<MarketRow>)
    requires ST.ValidTable(t)
    ensures |r| == |quotes|
    ensures forall i :: 0 <= i < |quotes| ==> r[i] == FormatMarketRow(t, m, quotes[i])
  {
    seq(|quotes|, i requires 0 <= i < |quotes| => FormatMarketRow(t, m, quotes[i]))
  }

  /** A missing close line becomes 0 and a missing open line takes the
      (filled) close; present lines are kept. */
  lemma MarketLinesFilled(t: ST.Table, m: Math, q: Quote)
    requires ST.ValidTable(t)
    ensures q.lineClose.None? ==> FormatMarketRow(t, m, q).lineClose == 0.0
    ensures q.lineClose.Some? ==> FormatMarketRow(t, m, q).lineClose == q.lineClose.value
    ensures q.lineOpen.None? ==> FormatMarketRow(t, m, q).lineOpen == FormatMarketRow(t, m, q).lineClose
    ensures q.lineOpen.Some? ==> FormatMarketRow(t, m, q).lineOpen == q.lineOpen.value
    ensures q.lineOpen.None? && q.lineClose.None? ==> FormatMarketRow(t, m, q).lineOpen == 0.0
  {
  }

  /** The implied home probability is the spread's wherever the spread
      table has one, the moneyline's otherwise, and NaN only when both
      are; the away probability is its complement. */
  lemma ImpliedProbabilities(t: ST.Table, m: Math, q: Quote)
    requires ST.ValidTable(t)
    ensures var row := FormatMarketRow(t, m, q);
      && (ST.SpreadToProbabilityVector(t, row.lineClose).Some? ==>
            row.homeProbClose == ST.SpreadToProbabilityVector(t, row.lineClose))
      && (ST.SpreadToProbabilityVector(t, row.lineClose).None? ==>
            row.homeProbClose.Some? == MoneylineImplied(q.homeMlClose, q.awayMlClose).Some?)
      && (ST.SpreadToProbabilityVector(t, row.lineClose).None? && row.homeProbClose.Some? ==>
            row.homeProbClose.value == MoneylineImplied(q.homeMlClose, q.awayMlClose).value.home)
      && (ST.SpreadToProbabilityVector(t, row.lineOpen).Some? ==>
            row.homeProbOpen == ST.SpreadToProbabilityVector(t, row.lineOpen))
      && (ST.SpreadToProbabilityVector(t, row.lineOpen).None? ==>
            row.homeProbOpen.Some? == MoneylineImplied(q.homeMlOpen, q.awayMlOpen).Some?)
      && (row.homeProbOpen.Some? ==> row.homeProbOpen.value + row.awayProbOpen.value == 1.0)
      && (row.homeProbClose.Some? ==> row.homeProbClose.value + row.awayProbClose.value == 1.0)
      && (row.homeProbClose.None? ==> row.awayProbClose.None? && row.eloDifClose.None?)
  {
  }

  /** A line inside the table's range is always priced by the spread
      table when the table has every key of its range, so the moneyline
      fallback applies only beyond the table or at a gap in it. */
  lemma SpreadCoversTable(t: ST.Table, line: real, ml: Option<Odds.HoldAdjusted>)
    requires ST.ValidTable(t) && t.lo <= ST.Key(line) <= t.hi && ST.Key(line) in t.entries
    ensures ImpliedHome(t, line, ml) == Some(t.entries[ST.Key(line)])
  {
  }

  // ---------------------------------------------------------------------
  // format_games

  /** A row of the schedule as loaded; scores are NaN for unplayed games. */
  datatype ScheduleRow = ScheduleRow(
    gameId: string, gameType: string, season: int, week: int,
    homeTeam: string, awayTeam: string,
    homeScore: Option<int>, awayScore: Option<int>)

  datatype GameRow = GameRow(
    gameId: string, kind: string, season: int, week: int,
    homeTeam: string, awayTeam: string,
    homeScore: Option<int>, awayScore: Option<int>,
    homeMargin: Option<int>, awayMargin: Option<int>,
    isPlayoffs: int)

  /** The `replace` of game types: the regular season becomes `reg`, the
      four playoff rounds `post`, any other code stays as it is. */
  function Kind(code: string): (r: string)
    ensures code == "REG" ==> r == "reg"
    ensures code == "WC" || code == "DIV" || code == "CON" || code == "SB" ==> r == "post"
    ensures code != "REG" && code != "WC" && code != "DIV" && code != "CON" && code != "SB" ==> r == code
  {
    if code == "REG" then "reg"
    else if code == "WC" || code == "DIV" || code == "CON" || code == "SB" then "post"
    else code
  }

  /** A score difference; NaN when either score is. */
  function Margin(mine: Option<int>, theirs: Option<int>): (r: Option<int>)
    ensures r.Some? <==> mine.Some? && theirs.Some?
  {
    if mine.Some? && theirs.Some? then Some(mine.value - theirs.value) else None
  }

  /** One row of format_games. */
  function FormatGame(g: ScheduleRow): GameRow {
    var kind := Kind(g.gameType);
    GameRow(g.gameId, kind, g.season, g.week, g.homeTeam, g.awayTeam, g.homeScore, g.awayScore,
            Margin(g.homeScore, g.awayScore), Margin(g.awayScore, g.homeScore),
            if kind == "post" then 1 else 0)
  }

  /** The playoff flag is 1 exactly for `post` games, which are the four
      playoff rounds (or a row already typed `post`); the away margin is
      the negated home margin, and both are NaN for an unplayed game. */
  lemma FormatGameFacts(g: ScheduleRow)
    ensures FormatGame(g).isPlayoffs == 1 <==> FormatGame(g).kind == "post"
    ensures FormatGame(g).isPlayoffs == 0 || FormatGame(g).isPlayoffs == 1
    ensures g.gameType == "REG" ==> FormatGame(g).isPlayoffs == 0
    ensures g.gameType in {"WC", "DIV", "CON", "SB", "post"} ==> FormatGame(g).isPlayoffs == 1
    ensures FormatGame(g).homeMargin.Some? <==> FormatGame(g).awayMargin.Some?
    ensures FormatGame(g).homeMargin.Some? ==> FormatGame(g).awayMargin.value == -FormatGame(g).homeMargin.value
    ensures FormatGame(g).homeMargin.None? <==> g.homeScore.None? || g.awayScore.None?
  {
  }

  // ---------------------------------------------------------------------
  // add_pff_margins, add_hfa, add_qbs

  /** A film margin, with the side's own score margin where it is missing
      (itself NaN for an unplayed game). */
  function FilmMargin(film: Option<real>, mine: Option<int>, theirs: Option<int>): (r: Option<real>)
    ensures film.Some? ==> r == film
    ensures film.None? && mine.Some? && theirs.Some? ==> r == Some((mine.value - theirs.value) as real)
    ensures film.None? && (mine.None? || theirs.None?) ==> r.None?
  {
    var m := Margin(mine, theirs);
    CombineFirst(film, if m.Some? then Some(m.value as real) else None)
  }

  /** The home-field adjustments of one game, in points. */
  datatype HfaAdjustments = HfaAdjustments(
    hfaBase: Option<real>, homeBye: Option<real>, awayBye: Option<real>,
    homeTimeAdvantage: Option<real>, difSurface: Option<real>, divGame: Option<real>,
    hfa: Option<real>)

  /** The neutral flag and the adjustments translated into rating points. */
  datatype HfaRow = HfaRow(isNeutral: int, mods: HfaAdjustments)

  /** Points to rating points: 25 per point, NaN kept. */
  function ToElo(x: Option<real>): (r: Option<real>)
    ensures r.Some? <==> x.Some?
    ensures r.Some? ==> r.value == 25.0 * x.value
  {
    if x.Some? then Some(25.0 * x.value) else None
  }

  /** One row of add_hfa: neutral iff the location is `Neutral` (a NaN
      location is not), every modifier 25 times its adjustment. */
  function AddHfa(location: Option<string>, adj: HfaAdjustments): (r: HfaRow)
    ensures r.isNeutral == 1 <==> location == Some("Neutral")
    ensures r.isNeutral == 0 || r.isNeutral == 1
    ensures r.mods.hfa == ToElo(adj.hfa) && r.mods.hfaBase == ToElo(adj.hfaBase)
    ensures r.mods.homeBye == ToElo(adj.homeBye) && r.mods.awayBye == ToElo(adj.awayBye)
    ensures r.mods.divGame == ToElo(adj.divGame) && r.mods.difSurface == ToElo(adj.difSurface)
    ensures r.mods.homeTimeAdvantage == ToElo(adj.homeTimeAdvantage)
  {
    HfaRow(if location == Some("Neutral") then 1 else 0,
           HfaAdjustments(ToElo(adj.hfaBase), ToElo(adj.homeBye), ToElo(adj.awayBye),
                          ToElo(adj.homeTimeAdvantage), ToElo(adj.difSurface), ToElo(adj.divGame),
                          ToElo(adj.hfa)))
  }

  /** add_qbs' fill of the quarterback adjustments: only when some row
      of either column is missing, and then with 0 in both columns. */
  function FillQbAdjustments(home: seq<Option<real>>, away: seq<Option<real>>)
    : (r: (seq<Option<real>>, seq<Option<real>>))
    requires |home| == |away|
  {
    if exists i :: 0 <= i < |home| && (home[i].None? || away[i].None?) then
      (seq(|home|, i requires 0 <= i < |home| => Some(home[i].GetOr(0.0))),
       seq(|away|, i requires 0 <= i < |away| => Some(away[i].GetOr(0.0))))
    else (home, away)
  }

  /** Whether or not the fill runs, every adjustment ends up present:
      the missing ones are 0 and the others keep their value. */
  lemma QbAdjustmentsFilled(home: seq<Option<real>>, away: seq<Option<real>>, i: int)
    requires |home| == |away| && 0 <= i < |home|
    ensures |FillQbAdjustments(home, away).0| == |home| && |FillQbAdjustments(home, away).1| == |away|
    ensures FillQbAdjustments(home, away).0[i] == Some(home[i].GetOr(0.0))
    ensures FillQbAdjustments(home, away).1[i] == Some(away[i].GetOr(0.0))
  {
    if !exists j :: 0 <= j < |home| && (home[j].None? || away[j].None?) {
      assert home[i].Some? && away[i].Some?;
    }
  }

  /** The 538 and qbelo close lines: the spread of a probability, NaN for a
      missing probability. */
  function LineOfProbability(t: ST.Table, p: Option<real>): (r: Option<real>)
    requires ST.ValidTable(t)
    ensures p.None? ==> r.None?
    ensures p.Some? ==> r == ST.ProbabilityToSpreadVector(t, p.value)
  {
    if p.Some? then ST.ProbabilityToSpreadVector(t, p.value) else None
  }

  // ---------------------------------------------------------------------
  // add_game_numbers

  /** One side of one game. */
  datatype TeamGame = TeamGame(team: string, season: int, week: int, gameId: string)

  /** The numbering columns of one side of one game. */
  datatype Numbered = Numbered(
    game: TeamGame, allTime: nat, number: nat,
    prevId: Option<string>, nextId: Option<string>,
    prevWeek: Option<int>, nextWeek: Option<int>)

  /** Every game's home side, then every game's away side. */
  function Sides(games: seq<ScheduleRow>): (r: seq<TeamGame>)
    ensures |r| == 2 * |games|
    ensures forall i :: 0 <= i < |games| ==>
      r[i] == TeamGame(games[i].homeTeam, games[i].season, games[i].week, games[i].gameId) &&
      r[|games| + i] == TeamGame(games[i].awayTeam, games[i].season, games[i].week, games[i].gameId)
  {
    seq(|games|, i requires 0 <= i < |games| =>
          TeamGame(games[i].homeTeam, games[i].season, games[i].week, games[i].gameId)) +
    seq(|games|, i requires 0 <= i < |games| =>
          TeamGame(games[i].awayTeam, games[i].season, games[i].week, games[i].gameId))
  }

  /** `sort_values(by=['team', 'season', 'week'])`. */
  function TeamGameLe(a: TeamGame, b: TeamGame): bool {
    if a.team != b.team then StringLe(a.team, b.team)
    else if a.season != b.season then a.season < b.season
    else a.week <= b.week
  }

  lemma TeamGameOrder()
    ensures TotalPreorder(TeamGameLe)
  {
    forall a: TeamGame, b: TeamGame
      ensures TeamGameLe(a, b) || TeamGameLe(b, a)
    {
      StringLeTotal(a.team, b.team);
    }
    forall a: TeamGame, b: TeamGame, c: TeamGame | TeamGameLe(a, b) && TeamGameLe(b, c)
      ensures TeamGameLe(a, c)
    {
      if a.team != b.team && b.team != c.team {
        StringLeTransitive(a.team, b.team, c.team);
        if a.team == c.team {
          StringLeAntisymmetric(a.team, b.team);
        }
      }
    }
  }

  /** Earlier rows of the team (`groupby('team').cumcount()`). */
  function CountTeam(s: seq<TeamGame>, n: nat, team: string): nat
    requires n <= |s|
  {
    if n == 0 then 0 else CountTeam(s, n - 1, team) + (if s[n - 1].team == team then 1 else 0)
  }

  /** Earlier rows of the team in the season (`groupby(['team', 'season']).cumcount()`). */
  function CountTeamSeason(s: seq<TeamGame>, n: nat, team: string, season: int): nat
    requires n <= |s|
  {
    if n == 0 then 0
    else CountTeamSeason(s, n - 1, team, season) + (if s[n - 1].team == team && s[n - 1].season == season then 1 else 0)
  }

  /** The last row before `n` of the team (`groupby('team').shift(1)`). */
  function LastOfTeam(s: seq<TeamGame>, n: nat, team: string): (r: Option<nat>)
    requires n <= |s|
    ensures r.Some? ==> r.value < n && s[r.value].team == team
    ensures r.Some? ==> forall j :: r.value < j < n ==> s[j].team != team
    ensures r.None? ==> forall j :: 0 <= j < n ==> s[j].team != team
  {
    if n == 0 then None
    else if s[n - 1].team == team then Some(n - 1)
    else LastOfTeam(s, n - 1, team)
  }

  /** The first row in [from, n) of the team (`groupby('team').shift(-1)`
      from the row before `from`). */
  function FirstOfTeam(s: seq<TeamGame>, from: nat, n: nat, team: string): (r: Option<nat>)
    requires from <= n <= |s|
    ensures r.Some? ==> from <= r.value < n && s[r.value].team == team
    ensures r.Some? ==> forall j :: from <= j < r.value ==> s[j].team != team
    ensures r.None? ==> forall j :: from <= j < n ==> s[j].team != team
    decreases n - from
  {
    if from == n then None
    else if s[from].team == team then Some(from)
    else FirstOfTeam(s, from + 1, n, team)
  }

  function IdAt(s: seq<TeamGame>, k: Option<nat>): Option<string>
    requires k.Some? ==> k.value < |s|
  {
    if k.Some? then Some(s[k.value].gameId) else None
  }

  function WeekAt(s: seq<TeamGame>, k: Option<nat>): Option<int>
    requires k.Some? ==> k.value < |s|
  {
    if k.Some? then Some(s[k.value].week) else None
  }

  /** The numbering columns of row `i` of the sorted flat file. */
  function NumberedAt(s: seq<TeamGame>, i: nat): Numbered
    requires i < |s|
  {
    var prev := LastOfTeam(s, i, s[i].team);
    var next := FirstOfTeam(s, i + 1, |s|, s[i].team);
    Numbered(s[i], CountTeam(s, i, s[i].team) + 1, CountTeamSeason(s, i, s[i].team, s[i].season) + 1,
             IdAt(s, prev), IdAt(s, next), WeekAt(s, prev), WeekAt(s, next))
  }

  /** The numbering columns of every row of the sorted flat file. */
  function Numbering(s: seq<TeamGame>): (r: seq<Numbered>)
    ensures |r| == |s|
    ensures forall i :: 0 <= i < |s| ==> r[i] == NumberedAt(s, i)
  {
    seq(|s|, i requires 0 <= i < |s| => NumberedAt(s, i))
  }

  /** add_game_numbers' flat file: both sides of every game, sorted. */
  function Flat(games: seq<ScheduleRow>): seq<TeamGame> {
    SortBy(Sides(games), TeamGameLe)
  }

  /** The flat file is sorted and holds the two sides of every game. */
  lemma FlatSorted(games: seq<ScheduleRow>)
    ensures SortedBy(Flat(games), TeamGameLe)
    ensures multiset(Flat(games)) == multiset(Sides(games))
    ensures |Flat(games)| == 2 * |games|
  {
    TeamGameOrder();
    SortBySorted(Sides(games), TeamGameLe);
    SortByPermutation(Sides(games), TeamGameLe);
    SortByLength(Sides(games), TeamGameLe);
  }

  /** In a file sorted by team, the rows of a team are contiguous. */
  lemma SortedGroupsTeams(s: seq<TeamGame>, i: int, j: int, k: int)
    requires SortedBy(s, TeamGameLe) && 0 <= i < j < k < |s| && s[i].team == s[k].team
    ensures s[j].team == s[i].team
  {
    assert TeamGameLe(s[i], s[j]) && TeamGameLe(s[j], s[k]);
    if s[j].team != s[i].team {
      StringLeAntisymmetric(s[i].team, s[j].team);
    }
  }

  /** In the sorted file the previous and next game of a team are the
      neighbouring rows when those belong to the team, and there are none
      otherwise. */
  lemma NeighbouringGames(s: seq<TeamGame>, i: int)
    requires SortedBy(s, TeamGameLe) && 0 <= i < |s|
    ensures i > 0 && s[i - 1].team == s[i].team ==> NumberedAt(s, i).prevId == Some(s[i - 1].gameId)
    ensures i == 0 || s[i - 1].team != s[i].team ==> NumberedAt(s, i).prevId.None?
    ensures i + 1 < |s| && s[i + 1].team == s[i].team ==> NumberedAt(s, i).nextId == Some(s[i + 1].gameId)
    ensures i + 1 == |s| || s[i + 1].team != s[i].team ==> NumberedAt(s, i).nextId.None?
  {
    if i > 0 && s[i - 1].team != s[i].team {
      PreviousIsNeighbour(s, i);
    }
    if i + 1 < |s| && s[i + 1].team != s[i].team {
      NextIsNeighbour(s, i);
    }
  }

  lemma PreviousIsNeighbour(s: seq<TeamGame>, i: int)
    requires SortedBy(s, TeamGameLe) && 0 < i < |s| && s[i - 1].team != s[i].team
    ensures LastOfTeam(s, i, s[i].team).None?
  {
    forall j | 0 <= j < i - 1 && s[j].team == s[i].team
      ensures false
    {
      SortedGroupsTeams(s, j, i - 1, i);
    }
  }

  lemma NextIsNeighbour(s: seq<TeamGame>, i: int)
    requires SortedBy(s, TeamGameLe) && 0 <= i && i + 1 < |s| && s[i + 1].team != s[i].team
    ensures FirstOfTeam(s, i + 1, |s|, s[i].team).None?
  {
    forall j | i + 1 < j < |s| && s[j].team == s[i].team
      ensures false
    {
      SortedGroupsTeams(s, i, i + 1, j);
    }
  }

  /** The all-time number is 1-based and counts the team's rows; the
      season number restarts at 1 with a team's first game of a season
      and otherwise follows the previous row's. */
  lemma GameNumbers(s: seq<TeamGame>, i: int)
    requires SortedBy(s, TeamGameLe) && 0 <= i < |s|
    ensures NumberedAt(s, i).allTime >= 1 && NumberedAt(s, i).number >= 1
    ensures i == 0 || s[i - 1].team != s[i].team ==> NumberedAt(s, i).allTime == 1
    ensures i > 0 && s[i - 1].team == s[i].team ==> NumberedAt(s, i).allTime == NumberedAt(s, i - 1).allTime + 1
    ensures i == 0 || s[i - 1].team != s[i].team || s[i - 1].season != s[i].season ==> NumberedAt(s, i).number == 1
    ensures i > 0 && s[i - 1].team == s[i].team && s[i - 1].season == s[i].season ==>
              NumberedAt(s, i).number == NumberedAt(s, i - 1).number + 1
  {
    if i > 0 && s[i - 1].team != s[i].team {
      NoEarlierRow(s, i, i - 1);
      NoEarlierSeasonRowOfTeam(s, i, i - 1);
    } else if i > 0 && s[i - 1].season != s[i].season {
      NoEarlierSeasonRow(s, i, i - 1);
    }
  }

  /** Rows before `n` that are not of the team do not count. */
  lemma {:induction false} NoEarlierRow(s: seq<TeamGame>, i: int, n: nat)
    requires SortedBy(s, TeamGameLe) && 0 < i < |s| && n <= i - 1 && s[i - 1].team != s[i].team
    ensures CountTeam(s, n + 1, s[i].team) == 0
  {
    if s[n].team == s[i].team {
      SortedGroupsTeams(s, n, i - 1, i);
    }
    if n > 0 {
      NoEarlierRow(s, i, n - 1);
    }
  }

  /** No row of the team means no row of the team in any season. */
  lemma {:induction false} NoEarlierSeasonRowOfTeam(s: seq<TeamGame>, i: int, n: nat)
    requires SortedBy(s, TeamGameLe) && 0 < i < |s| && n <= i - 1 && s[i - 1].team != s[i].team
    ensures CountTeamSeason(s, n + 1, s[i].team, s[i].season) == 0
  {
    if s[n].team == s[i].team {
      SortedGroupsTeams(s, n, i - 1, i);
    }
    if n > 0 {
      NoEarlierSeasonRowOfTeam(s, i, n - 1);
    }
  }

  /** When the previous row of the team is of an earlier season, no row
      before it is of this team's season. */
  lemma {:induction false} NoEarlierSeasonRow(s: seq<TeamGame>, i: int, n: nat)
    requires SortedBy(s, TeamGameLe) && 0 < i < |s| && n <= i - 1
    requires s[i - 1].team == s[i].team && s[i - 1].season != s[i].season
    ensures CountTeamSeason(s, n + 1, s[i].team, s[i].season) == 0
  {
    if s[n].team == s[i].team {
      assert TeamGameLe(s[n], s[i - 1]) || n == i - 1;
      assert TeamGameLe(s[i - 1], s[i]);
    }
    if n > 0 {
      NoEarlierSeasonRow(s, i, n - 1);
    }
  }

  /** The merge of the numbering back onto the games: the first flat row
      of the side's team with the game's season, week and id. */
  function NumbersOf(rows: seq<Numbered>, team: string, season: int, week: int, gameId: string): (r: Option<Numbered>)
    ensures r.Some? ==> r.value in rows && r.value.game == TeamGame(team, season, week, gameId)
    ensures r.None? ==> forall k :: 0 <= k < |rows| ==> rows[k].game != TeamGame(team, season, week, gameId)
  {
    if |rows| == 0 then None
    else if rows[0].game == TeamGame(team, season, week, gameId) then Some(rows[0])
    else NumbersOf(rows[1..], team, season, week, gameId)
  }

  /** Every game finds the numbering of both of its sides. */
  lemma EveryGameNumbered(games: seq<ScheduleRow>, i: int)
    requires 0 <= i < |games|
    ensures NumbersOf(Numbering(Flat(games)), games[i].homeTeam, games[i].season, games[i].week, games[i].gameId).Some?
    ensures NumbersOf(Numbering(Flat(games)), games[i].awayTeam, games[i].season, games[i].week, games[i].gameId).Some?
  {
    var g := games[i];
    var flat := Flat(games);
    FlatSorted(games);
    var rows := Numbering(flat);
    var home := TeamGame(g.homeTeam, g.season, g.week, g.gameId);
    var away := TeamGame(g.awayTeam, g.season, g.week, g.gameId);
    assert Sides(games)[i] == home && Sides(games)[|games| + i] == away;
    assert home in multiset(flat) && away in multiset(flat);
    var h :| 0 <= h < |flat| && flat[h] == home;
    var a :| 0 <= a < |flat| && flat[a] == away;
    assert rows[h].game == home && rows[a].game == away;
  }
}
