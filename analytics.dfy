/** The team file of the analytics layer (nfelo/Analytics/NfeloAnalytics.py):
    every processed game seen from each side, numbered per team, with
    season-to-date and last-8/last-16 sums of three margins and the
    team's rating before and after the game. */
module Analytics {
  import opened Wrappers
  import opened Numerics
  import NR = NfeloRules
  import DL = DataLoader

  /** The three margins add_rolls accumulates. */
  datatype Metric = Margin | WepaMargin | PffMargin

  const Metrics: seq<Metric> := [Margin, WepaMargin, PffMargin]

  /** One side of one game, from that side's point of view. */
  datatype TeamRow = TeamRow(
    key: DL.TeamGame, opponent: string,
    allTimeGameNumber: nat, seasonGameNumber: int,
    margin: Option<real>, wepaMargin: Option<real>, pffMargin: Option<real>)

  function Value(r: TeamRow, m: Metric): Option<real> {
    match m
    case Margin => r.margin
    case WepaMargin => r.wepaMargin
    case PffMargin => r.pffMargin
  }

  // ---------------------------------------------------------------------
  // flatten

  /** A game from one side: that side's team, opponent, game number and
      margins.  The all-time number is recomputed after sorting. */
  function Perspective(g: NR.Game, side: NR.TeamSide): (r: TeamRow)
    ensures r.key == DL.TeamGame(NR.TeamOf(g, side), g.season, g.week, g.gameId)
    ensures r.opponent == NR.TeamOf(g, if side == NR.HomeSide then NR.AwaySide else NR.HomeSide)
  {
    if side == NR.HomeSide then
      TeamRow(DL.TeamGame(g.homeTeam, g.season, g.week, g.gameId), g.awayTeam, 0, g.gameNumberHome,
              g.homeMargin, g.homeWepaMargin, g.homePffMargin)
    else
      TeamRow(DL.TeamGame(g.awayTeam, g.season, g.week, g.gameId), g.homeTeam, 0, g.gameNumberAway,
              g.awayMargin, g.awayWepaMargin, g.awayPffMargin)
  }

  /** Every game from the home side, then every game from the away side. */
  function Perspectives(rows: seq<NR.GameRow>): (r: seq<TeamRow>)
    ensures |r| == 2 * |rows|
    ensures forall i :: 0 <= i < |rows| ==>
      r[i] == Perspective(rows[i].game, NR.HomeSide) && r[|rows| + i] == Perspective(rows[i].game, NR.AwaySide)
  {
    seq(|rows|, i requires 0 <= i < |rows| => Perspective(rows[i].game, NR.HomeSide)) +
    seq(|rows|, i requires 0 <= i < |rows| => Perspective(rows[i].game, NR.AwaySide))
  }

  /** Sorted by team, season and week. */
  function RowLe(a: TeamRow, b: TeamRow): bool {
    DL.TeamGameLe(a.key, b.key)
  }

  lemma RowOrder()
    ensures TotalPreorder(RowLe)
  {
    DL.TeamGameOrder();
  }

  function Keys(s: seq<TeamRow>): (r: seq<DL.TeamGame>)
    ensures |r| == |s| && forall i :: 0 <= i < |s| ==> r[i] == s[i].key
  {
    seq(|s|, i requires 0 <= i < |s| => s[i].key)
  }

  /** `groupby('team').cumcount() + 1` over the sorted rows. */
  function Renumber(s: seq<TeamRow>): (r: seq<TeamRow>)
    ensures |r| == |s|
    ensures forall i :: 0 <= i < |s| ==>
      r[i] == s[i].(allTimeGameNumber := DL.CountTeam(Keys(s), i, s[i].key.team) + 1)
  {
    seq(|s|, i requires 0 <= i < |s| =>
      s[i].(allTimeGameNumber := DL.CountTeam(Keys(s), i, s[i].key.team) + 1))
  }

  /** flatten: both perspectives, sorted, renumbered. */
  function Flatten(rows: seq<NR.GameRow>): seq<TeamRow> {
    Renumber(SortBy(Perspectives(rows), RowLe))
  }

  /** Setting a row's all-time number is the only rewrite. */
  function Unnumbered(r: TeamRow): TeamRow {
    r.(allTimeGameNumber := 0)
  }

  /** The flattened file holds two rows per game and is sorted by team,
      season and week. */
  lemma FlattenSorted(rows: seq<NR.GameRow>)
    ensures |Flatten(rows)| == 2 * |rows|
    ensures SortedBy(Keys(Flatten(rows)), DL.TeamGameLe)
    ensures multiset(SortBy(Perspectives(rows), RowLe)) == multiset(Perspectives(rows))
  {
    var sides := Perspectives(rows);
    var sorted := SortBy(sides, RowLe);
    RowOrder();
    SortBySorted(sides, RowLe);
    SortByPermutation(sides, RowLe);
    SortByLength(sides, RowLe);
    var flat := Flatten(rows);
    forall a, b | 0 <= a < b < |flat|
      ensures DL.TeamGameLe(Keys(flat)[a], Keys(flat)[b])
    {
      assert RowLe(sorted[a], sorted[b]);
    }
  }

  /** Each game appears from both sides, with the margins of that side. */
  lemma FlattenShape(rows: seq<NR.GameRow>, i: int)
    requires 0 <= i < |rows|
    ensures exists j :: 0 <= j < |Flatten(rows)| && Unnumbered(Flatten(rows)[j]) == Perspective(rows[i].game, NR.HomeSide)
    ensures exists k :: 0 <= k < |Flatten(rows)| && Unnumbered(Flatten(rows)[k]) == Perspective(rows[i].game, NR.AwaySide)
  {
    FlattenSorted(rows);
    var sides := Perspectives(rows);
    var sorted := SortBy(sides, RowLe);
    var flat := Flatten(rows);
    var home := Perspective(rows[i].game, NR.HomeSide);
    var away := Perspective(rows[i].game, NR.AwaySide);
    assert sides[i] == home && sides[|rows| + i] == away;
    assert home in multiset(sorted) && away in multiset(sorted);
    var j :| 0 <= j < |sorted| && sorted[j] == home;
    var k :| 0 <= k < |sorted| && sorted[k] == away;
    assert Unnumbered(flat[j]) == sorted[j] && Unnumbered(flat[k]) == sorted[k];
  }

  /** The all-time game number is a 1-based counter per team: 1 at a
      team's first row, one more than the previous row of the team. */
  lemma AllTimeCounter(rows: seq<NR.GameRow>, i: int)
    requires 0 <= i < |Flatten(rows)|
    ensures var flat := Flatten(rows);
      && flat[i].allTimeGameNumber >= 1
      && (i == 0 || flat[i - 1].key.team != flat[i].key.team ==> flat[i].allTimeGameNumber == 1)
      && (i > 0 && flat[i - 1].key.team == flat[i].key.team ==>
            flat[i].allTimeGameNumber == flat[i - 1].allTimeGameNumber + 1)
  {
    FlattenSorted(rows);
    var flat := Flatten(rows);
    var sorted := SortBy(Perspectives(rows), RowLe);
    assert Keys(flat) == Keys(sorted);
    DL.GameNumbers(Keys(flat), i);
  }

  // ---------------------------------------------------------------------
  // add_rolls

  /** The metric's values of the rows before `n` of a team's season, in
      order: the group `groupby(['team', 'season'])` hands to a transform. */
  function GroupValues(s: seq<TeamRow>, n: nat, team: string, season: int, m: Metric): (r: seq<Option<real>>)
    requires n <= |s|
    ensures |r| <= n
  {
    if n == 0 then []
    else if s[n - 1].key.team == team && s[n - 1].key.season == season then
      GroupValues(s, n - 1, team, season, m) + [Value(s[n - 1], m)]
    else GroupValues(s, n - 1, team, season, m)
  }

  /** The sum of the values present (pandas skips NaN). */
  function SumPresent(vals: seq<Option<real>>): real {
    if |vals| == 0 then 0.0 else SumPresent(vals[..|vals| - 1]) + vals[|vals| - 1].GetOr(0.0)
  }

  predicate AnyPresent(vals: seq<Option<real>>) {
    exists i :: 0 <= i < |vals| && vals[i].Some?
  }

  /** The last `k` entries (all of them when there are fewer). */
  function LastK(vals: seq<Option<real>>, k: nat): (r: seq<Option<real>>)
    ensures |r| <= k && |r| <= |vals|
    ensures |vals| <= k ==> r == vals
  {
    if |vals| <= k then vals else vals[|vals| - k..]
  }

  function GroupUpTo(s: seq<TeamRow>, i: nat, m: Metric): seq<Option<real>>
    requires i < |s|
  {
    GroupValues(s, i + 1, s[i].key.team, s[i].key.season, m)
  }

  /** `{metric}_ytd`: `cumsum` within the team's season, NaN where the
      row's own value is. */
  function YtdAt(s: seq<TeamRow>, i: nat, m: Metric): Option<real>
    requires i < |s|
  {
    if Value(s[i], m).None? then None else Some(SumPresent(GroupUpTo(s, i, m)))
  }

  /** `{metric}_L{k}`: `rolling(k, min_periods=1).sum()` within the
      team's season: the present values among the last k rows, NaN when
      none is present. */
  function RollAt(s: seq<TeamRow>, i: nat, k: nat, m: Metric): Option<real>
    requires i < |s|
  {
    var w := LastK(GroupUpTo(s, i, m), k);
    if AnyPresent(w) then Some(SumPresent(w)) else None
  }

  function YtdColumn(s: seq<TeamRow>, m: Metric): (r: seq<Option<real>>)
    ensures |r| == |s| && forall i :: 0 <= i < |s| ==> r[i] == YtdAt(s, i, m)
  {
    seq(|s|, i requires 0 <= i < |s| => YtdAt(s, i, m))
  }

  function RollColumn(s: seq<TeamRow>, k: nat, m: Metric): (r: seq<Option<real>>)
    ensures |r| == |s| && forall i :: 0 <= i < |s| ==> r[i] == RollAt(s, i, k, m)
  {
    seq(|s|, i requires 0 <= i < |s| => RollAt(s, i, k, m))
  }

  /** The columns add_rolls adds. */
  datatype Column = Ytd(metric: Metric) | Last(metric: Metric, window: nat)

  /** add_rolls: for each metric, the season-to-date column and the two
      rolling columns. */
  method AddRolls(s: seq<TeamRow>) returns (cols: map<Column, seq<Option<real>>>)
    ensures forall c :: c in cols <==> c.Ytd? || (c.Last? && (c.window == 8 || c.window == 16))
    ensures forall m :: Ytd(m) in cols && cols[Ytd(m)] == YtdColumn(s, m)
    ensures forall m :: Last(m, 8) in cols && cols[Last(m, 8)] == RollColumn(s, 8, m)
    ensures forall m :: Last(m, 16) in cols && cols[Last(m, 16)] == RollColumn(s, 16, m)
  {
    cols := map[];
    for i := 0 to |Metrics|
      invariant forall c :: c in cols <==> c.metric in Metrics[..i] && (c.Ytd? || c.window == 8 || c.window == 16)
      invariant forall c :: c in cols && c.Ytd? ==> cols[c] == YtdColumn(s, c.metric)
      invariant forall c :: c in cols && c.Last? ==> cols[c] == RollColumn(s, c.window, c.metric)
    {
      var m := Metrics[i];
      cols := cols[Ytd(m) := YtdColumn(s, m)];
      var rolls := [8, 16];
      for j := 0 to |rolls|
        invariant forall c :: c in cols <==>
          (c.metric in Metrics[..i] && (c.Ytd? || c.window == 8 || c.window == 16)) ||
          (c.metric == m && (c.Ytd? || c.window in rolls[..j]))
        invariant forall c :: c in cols && c.Ytd? ==> cols[c] == YtdColumn(s, c.metric)
        invariant forall c :: c in cols && c.Last? ==> cols[c] == RollColumn(s, c.window, c.metric)
      {
        cols := cols[Last(m, rolls[j]) := RollColumn(s, rolls[j], m)];
      }
      assert rolls[..|rolls|] == [8, 16];
      assert Metrics[..i + 1] == Metrics[..i] + [m];
    }
    assert Metrics[..|Metrics|] == Metrics;
    AllMetrics();
  }

  lemma AllMetrics()
    ensures forall m :: m in Metrics
  {
    forall m: Metric
      ensures m in Metrics
    {
      if m == Margin {
        assert Metrics[0] == m;
      } else if m == WepaMargin {
        assert Metrics[1] == m;
      } else {
        assert Metrics[2] == m;
      }
    }
  }

  /** Each row's group ends with its own value. */
  lemma GroupEndsWithRow(s: seq<TeamRow>, i: nat, m: Metric)
    requires i < |s|
    ensures GroupUpTo(s, i, m) == GroupValues(s, i, s[i].key.team, s[i].key.season, m) + [Value(s[i], m)]
  {
  }

  /** Rows between two rows of a group that belong to other groups do not
      change the group's values. */
  lemma {:induction false} GroupSkips(s: seq<TeamRow>, p: nat, n: nat, team: string, season: int, m: Metric)
    requires p <= n <= |s|
    requires forall j :: p <= j < n ==> !(s[j].key.team == team && s[j].key.season == season)
    ensures GroupValues(s, n, team, season, m) == GroupValues(s, p, team, season, m)
    decreases n - p
  {
    if n > p {
      GroupSkips(s, p, n - 1, team, season, m);
    }
  }

  lemma {:induction false} SumPresentAppend(vals: seq<Option<real>>, v: Option<real>)
    ensures SumPresent(vals + [v]) == SumPresent(vals) + v.GetOr(0.0)
  {
    assert (vals + [v])[..|vals|] == vals;
  }

  /** The season-to-date sum is a running sum: the previous row of the
      team's season plus this row's value. */
  lemma YtdRunning(s: seq<TeamRow>, p: nat, i: nat, m: Metric)
    requires p < i < |s| && s[p].key.team == s[i].key.team && s[p].key.season == s[i].key.season
    requires forall j :: p < j < i ==> !(s[j].key.team == s[i].key.team && s[j].key.season == s[i].key.season)
    requires Value(s[p], m).Some? && Value(s[i], m).Some?
    ensures YtdAt(s, i, m) == Some(YtdAt(s, p, m).value + Value(s[i], m).value)
  {
    var before := GroupUpTo(s, p, m);
    var v := Value(s[i], m);
    GroupSkips(s, p + 1, i, s[i].key.team, s[i].key.season, m);
    GroupEndsWithRow(s, i, m);
    assert GroupUpTo(s, i, m) == before + [v];
    SumPresentAppend(before, v);
    assert YtdAt(s, p, m) == Some(SumPresent(before));
    assert YtdAt(s, i, m) == Some(SumPresent(before + [v]));
  }

  /** No earlier row of the team's season: the group is the row alone. */
  lemma FirstOfSeason(s: seq<TeamRow>, i: nat, m: Metric)
    requires i < |s|
    requires forall j :: 0 <= j < i ==> !(s[j].key.team == s[i].key.team && s[j].key.season == s[i].key.season)
    ensures GroupUpTo(s, i, m) == [Value(s[i], m)]
  {
    GroupSkips(s, 0, i, s[i].key.team, s[i].key.season, m);
    GroupEndsWithRow(s, i, m);
  }

  /** At a team's first game of a season every column is that game's own
      value: nothing carries over from the previous season, and a present
      value gives the same season-to-date and rolling sums. */
  lemma SeasonStartsAfresh(s: seq<TeamRow>, i: nat, k: nat, m: Metric)
    requires i < |s| && k >= 1
    requires forall j :: 0 <= j < i ==> !(s[j].key.team == s[i].key.team && s[j].key.season == s[i].key.season)
    ensures YtdAt(s, i, m) == Value(s[i], m)
    ensures RollAt(s, i, k, m) == Value(s[i], m)
  {
    FirstOfSeason(s, i, m);
    var g := [Value(s[i], m)];
    assert SumPresent(g) == SumPresent(g[..0]) + g[0].GetOr(0.0);
    assert LastK(g, k) == g;
    if Value(s[i], m).Some? {
      assert AnyPresent(g) by { assert g[0].Some?; }
    }
  }

  /** A window at least as long as the season so far sums the whole
      season: the rolling value then equals the season-to-date value
      wherever the row's own value is present. */
  lemma ShortSeasonWindowIsYtd(s: seq<TeamRow>, i: nat, k: nat, m: Metric)
    requires i < |s| && |GroupUpTo(s, i, m)| <= k && Value(s[i], m).Some?
    ensures RollAt(s, i, k, m) == YtdAt(s, i, m)
  {
    GroupEndsWithRow(s, i, m);
    var g := GroupUpTo(s, i, m);
    assert g[|g| - 1].Some?;
  }

  /** The rolling window never holds more than k games. */
  lemma WindowBounded(s: seq<TeamRow>, i: nat, k: nat, m: Metric)
    requires i < |s|
    ensures |LastK(GroupUpTo(s, i, m), k)| <= k
  {
  }

  // ---------------------------------------------------------------------
  // add_nfelo

  /** The first rating snapshot of the team for the game (a left merge on
      team and game id): its starting and ending rating. */
  function NfeloOf(records: seq<NR.TeamState>, team: string, gameId: string): (r: Option<(Option<real>, real)>)
    ensures r.Some? ==> exists k :: (0 <= k < |records| && records[k].team == team &&
      records[k].gameId == Some(gameId) && r.value == (records[k].startingNfelo, records[k].endingNfelo))
    ensures r.None? ==> forall k :: 0 <= k < |records| ==> !(records[k].team == team && records[k].gameId == Some(gameId))
  {
    if |records| == 0 then None
    else if records[0].team == team && records[0].gameId == Some(gameId) then
      Some((records[0].startingNfelo, records[0].endingNfelo))
    else
      var r := NfeloOf(records[1..], team, gameId);
      assert r.Some? ==> exists k :: (1 <= k < |records| && records[k].team == team &&
        records[k].gameId == Some(gameId) && r.value == (records[k].startingNfelo, records[k].endingNfelo)) by {
        if r.Some? {
          var k :| 0 <= k < |records[1..]| && records[1..][k].team == team && records[1..][k].gameId == Some(gameId) &&
            r.value == (records[1..][k].startingNfelo, records[1..][k].endingNfelo);
          assert records[k + 1] == records[1..][k];
        }
      }
      r
  }
}
