/** The game-level merge: the blended Football Outsiders rating, each
    team-week's rating at the start of the week, the PFF season type, the
    frozen PFF point-margin formula with its fallback, and the manual score
    fixes. */
module GameDataMerge {
  import opened Wrappers
  import FormatSpreads

  // -------------------------------------------------------------------
  // blended DVOA

  /** The weight of the season-to-date rating reaches its full value at
      week 8. */
  const BlendWeeks := 8

  /** Before week 9, the projection and the season-to-date rating are
      blended by weeks played: ((8 - w) * projection + w * total) / 8; from
      week 9 on the total alone. A NaN week or total gives NaN. */
  function BlendedDvoa(week: Option<int>, proj: real, total: Option<real>): (r: Option<real>)
    ensures r.Some? <==> week.Some? && total.Some?
    ensures r.Some? && week.value > BlendWeeks ==> r == total
  {
    if week.None? || total.None? then None
    else if week.value <= BlendWeeks then
      Some(((BlendWeeks - week.value) as real * proj + week.value as real * total.value) / BlendWeeks as real)
    else total
  }

  /** Week 0 is the projection, week 8 the total, and any week in between
      lies between the two. */
  lemma BlendedDvoaBetween(w: int, proj: real, total: real)
    requires 0 <= w <= BlendWeeks
    ensures var b := BlendedDvoa(Some(w), proj, Some(total)).value;
            (w == 0 ==> b == proj) && (w == BlendWeeks ==> b == total)
            && (proj <= total ==> proj <= b <= total) && (total <= proj ==> total <= b <= proj)
  {
    var b := BlendedDvoa(Some(w), proj, Some(total)).value;
    var x := w as real;
    assert b * 8.0 == (8.0 - x) * proj + x * total;
    assert b * 8.0 - 8.0 * proj == x * (total - proj);
    assert 8.0 * total - b * 8.0 == (8.0 - x) * (total - proj);
    if proj <= total {
      ProductNonNegative(x, total - proj);
      ProductNonNegative(8.0 - x, total - proj);
    } else {
      ProductNonNegative(x, proj - total);
      ProductNonNegative(8.0 - x, proj - total);
    }
  }

  lemma ProductNonNegative(a: real, b: real)
    requires 0.0 <= a && 0.0 <= b
    ensures 0.0 <= a * b
  {
  }

  // -------------------------------------------------------------------
  // the rating at the start of a week

  /** A row of the projection table merged with the weekly ratings; `week`
      and `total` are NaN for a team-season without weekly ratings. */
  datatype DvoaRow = DvoaRow(team: string, season: int, week: Option<int>, proj: real, total: Option<real>)

  function Blended(x: DvoaRow): Option<real> {
    BlendedDvoa(x.week, x.proj, x.total)
  }

  /** The row with the beginning-of-week ratings added. */
  datatype BeginRow = BeginRow(row: DvoaRow, blendedBegin: Option<real>, totalBegin: Option<real>)

  /** The first row of the same team and season for the week before `week`. */
  function PreviousWeek(table: seq<DvoaRow>, team: string, season: int, week: int): (r: Option<nat>)
    ensures r.Some? ==> r.value < |table| && table[r.value].team == team && table[r.value].season == season
                        && table[r.value].week == Some(week - 1)
    ensures r.Some? ==> forall j :: 0 <= j < r.value ==>
              !(table[j].team == team && table[j].season == season && table[j].week == Some(week - 1))
    ensures r.None? ==> forall j :: 0 <= j < |table| ==>
              !(table[j].team == team && table[j].season == season && table[j].week == Some(week - 1))
  {
    if |table| == 0 then None
    else if table[0].team == team && table[0].season == season && table[0].week == Some(week - 1) then Some(0)
    else
      var rest := PreviousWeek(table[1..], team, season, week);
      if rest.None? then None else Some(rest.value + 1)
  }

  /** `calc_begining_dvoa`: a team-season without weekly ratings starts
      from its projection and is given week 1; week 1 starts from the
      projection; any other week takes the blended and total ratings of
      the week before, and raises when that week is missing. */
  function BeginningDvoa(x: DvoaRow, table: seq<DvoaRow>): (r: Result<BeginRow, Error>)
    ensures x.week.None? ==> r == Ok(BeginRow(x.(week := Some(1)), Some(x.proj), None))
    ensures x.week == Some(1) ==> r == Ok(BeginRow(x, Some(x.proj), None))
    ensures x.week.Some? && x.week.value != 1 ==>
              (r.Ok? <==> PreviousWeek(table, x.team, x.season, x.week.value).Some?)
    ensures r.Ok? && x.week.Some? && x.week.value != 1 ==>
              var j := PreviousWeek(table, x.team, x.season, x.week.value).value;
              r.value == BeginRow(x, Blended(table[j]), table[j].total)
  {
    if x.week.None? then Ok(BeginRow(x.(week := Some(1)), Some(x.proj), None))
    else if x.week.value == 1 then Ok(BeginRow(x, Some(x.proj), None))
    else
      var j := PreviousWeek(table, x.team, x.season, x.week.value);
      if j.None? then Err(KeyMissing("single positional indexer is out-of-bounds"))
      else Ok(BeginRow(x, Blended(table[j.value]), table[j.value].total))
  }

  /** The row-wise apply, every lookup made in the table as it was before
      the apply; the first row that raises ends it. */
  method BeginningAll(rows: seq<DvoaRow>) returns (r: Result<seq<BeginRow>, Error>)
    ensures r.Ok? <==> forall k :: 0 <= k < |rows| ==> BeginningDvoa(rows[k], rows).Ok?
    ensures r.Ok? ==> |r.value| == |rows| && forall k :: 0 <= k < |rows| ==> r.value[k] == BeginningDvoa(rows[k], rows).value
  {
    var out: seq<BeginRow> := [];
    for i := 0 to |rows|
      invariant |out| == i
      invariant forall k :: 0 <= k < i ==> BeginningDvoa(rows[k], rows).Ok? && out[k] == BeginningDvoa(rows[k], rows).value
    {
      var b := BeginningDvoa(rows[i], rows);
      if b.Err? {
        return Err(b.error);
      }
      out := out + [b.value];
    }
    r := Ok(out);
  }

  /** Every week after the first starts where the week before ended. */
  lemma StartsWherePreviousEnded(rows: seq<DvoaRow>, k: nat)
    requires k < |rows| && rows[k].week.Some? && rows[k].week.value != 1
    requires BeginningDvoa(rows[k], rows).Ok?
    ensures exists j :: 0 <= j < |rows| && rows[j].team == rows[k].team && rows[j].season == rows[k].season
              && rows[j].week == Some(rows[k].week.value - 1)
              && BeginningDvoa(rows[k], rows).value.blendedBegin == Blended(rows[j])
              && BeginningDvoa(rows[k], rows).value.totalBegin == rows[j].total
  {
    var j := PreviousWeek(rows, rows[k].team, rows[k].season, rows[k].week.value).value;
    assert rows[j].week == Some(rows[k].week.value - 1);
  }

  // -------------------------------------------------------------------
  // season type

  /** Through the 2020 season weeks after 17 are playoff weeks; from 2021
      on, weeks after 18. */
  function PffType(season: int, week: int): (r: FormatSpreads.SeasonType)
    ensures r == FormatSpreads.Post <==> week > (if season <= 2020 then 17 else 18)
  {
    if season <= 2020 then (if week > 17 then FormatSpreads.Post else FormatSpreads.Reg)
    else if week > 18 then FormatSpreads.Post else FormatSpreads.Reg
  }

  /** Once a week is a playoff week, every later week is too. */
  lemma PffTypeMonotone(season: int, w: int, w2: int)
    requires PffType(season, w) == FormatSpreads.Post && w <= w2
    ensures PffType(season, w2) == FormatSpreads.Post
  {
  }

  /** A TFL playoff row is a playoff game here too, so the two merges on
      season type agree. */
  lemma TflPostIsPffPost(season: int, week: int)
    requires FormatSpreads.TflType(season, week) == FormatSpreads.Post
    ensures PffType(season, week) == FormatSpreads.Post
  {
  }

  // -------------------------------------------------------------------
  // PFF point margins

  /** The frozen intercept and slope of the grade-to-margin regression. */
  const PffIntercept := 1.263
  const PffSlope := -87.728

  function Diff(a: Option<real>, b: Option<real>): (r: Option<real>)
    ensures r.Some? <==> a.Some? && b.Some?
  {
    if a.None? || b.None? then None else Some(a.value - b.value)
  }

  /** A side's PFF margin: 1.263 - 87.728 * its grade, or, without a grade,
      its score margin (NaN when a score is). */
  function PffMargin(grade: Option<real>, scoreFor: Option<real>, scoreAgainst: Option<real>): (r: Option<real>)
    ensures grade.Some? ==> r == Some(PffIntercept + PffSlope * grade.value)
    ensures grade.None? ==> r == Diff(scoreFor, scoreAgainst)
  {
    CombineFirst(if grade.Some? then Some(PffIntercept + PffSlope * grade.value) else None,
                 Diff(scoreFor, scoreAgainst))
  }

  /** A game without grades gets opposite margins for its two sides. */
  lemma FallbackMarginsOpposite(homeScore: real, awayScore: real)
    ensures PffMargin(None, Some(homeScore), Some(awayScore)).value
         == -PffMargin(None, Some(awayScore), Some(homeScore)).value
  {
  }

  /** With grades, a higher grade gives a lower margin (the frozen slope
      is negative). */
  lemma PffMarginFallsWithGrade(g1: real, g2: real, pf: Option<real>, pa: Option<real>)
    requires g1 < g2
    ensures PffMargin(Some(g2), pf, pa).value < PffMargin(Some(g1), pf, pa).value
  {
  }

  // -------------------------------------------------------------------
  // manual score fixes

  /** A game row's id and scores; `None` scores are NaN. */
  datatype GameRow = GameRow(gameId: string, homeScore: Option<real>, awayScore: Option<real>)

  /** `apply_manual_fixes`: a listed game gets the listed home score, then
      the listed away score; a missing key ends the fix where it is raised,
      so a fix without an away score still sets the home score. */
  function ManualFix(row: GameRow, fixes: map<string, map<string, real>>): (r: GameRow)
    ensures r.gameId == row.gameId
    ensures row.gameId !in fixes ==> r == row
    ensures row.gameId in fixes && "home_score" in fixes[row.gameId] && "away_score" in fixes[row.gameId] ==>
              r.homeScore == Some(fixes[row.gameId]["home_score"]) && r.awayScore == Some(fixes[row.gameId]["away_score"])
    ensures row.gameId in fixes && "home_score" !in fixes[row.gameId] ==> r == row
  {
    if row.gameId !in fixes || "home_score" !in fixes[row.gameId] then row
    else
      var fixed := row.(homeScore := Some(fixes[row.gameId]["home_score"]));
      if "away_score" !in fixes[row.gameId] then fixed
      else fixed.(awayScore := Some(fixes[row.gameId]["away_score"]))
  }

  /** Applying the fixes twice is the same as once. */
  lemma ManualFixIdempotent(row: GameRow, fixes: map<string, map<string, real>>)
    ensures ManualFix(ManualFix(row, fixes), fixes) == ManualFix(row, fixes)
  {
  }

  /** The row-wise apply over the final table. */
  method ManualFixAll(rows: seq<GameRow>, fixes: map<string, map<string, real>>) returns (r: seq<GameRow>)
    ensures |r| == |rows|
    ensures forall k :: 0 <= k < |rows| ==> r[k] == ManualFix(rows[k], fixes)
  {
    r := [];
    for i := 0 to |rows|
      invariant |r| == i
      invariant forall k :: 0 <= k < i ==> r[k] == ManualFix(rows[k], fixes)
    {
      r := r + [ManualFix(rows[i], fixes)];
    }
  }
}
