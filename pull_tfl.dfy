/** The TheFootballLines scraper (data_pulls/pull_tfl_lines.py): the list
    of weekly pages, the parse of one table row into teams, scores, season,
    week and lines, the page-by-page scrape, and the left merge of
    moneylines onto spreads.  Fetching a page is a parameter: `fetch`
    returns the page's odd and even table rows as cleaned cell texts, or
    `None` when both attempts to load it failed. */
module PullTfl {
  import opened Wrappers
  import opened Text

  // -------------------------------------------------------------------
  // the URL list

  const SpreadBase := "https://thefootballlines.com/nfl"
  const SpreadTail := "/point-spreads"
  const MoneylineBase := "https://thefootballlines.com/nfl-odds"
  const MoneylineTail := ""
  const Rounds: seq<string> := ["wildcard", "division", "conference", "superbowl"]

  /** 18 regular-season weeks from 2022 on, 17 before. */
  function RegularWeeks(thisYear: int): (r: nat)
    ensures r == 17 || r == 18
  {
    if thisYear >= 2022 then 18 else 17
  }

  function WeekUrl(base: string, week: nat, tail: string): string {
    base + "/week-" + NatToString(week) + tail
  }

  function RoundUrl(base: string, round: string, tail: string): string {
    base + "/" + round + tail
  }

  /** The pages in scraping order: every regular week, then the four
      playoff rounds. */
  function UrlList(thisYear: int, base: string, tail: string): (r: seq<string>)
    ensures |r| == RegularWeeks(thisYear) + 4
    ensures forall i :: 0 <= i < RegularWeeks(thisYear) ==> r[i] == WeekUrl(base, i + 1, tail)
    ensures forall k :: 0 <= k < 4 ==> r[RegularWeeks(thisYear) + k] == RoundUrl(base, Rounds[k], tail)
  {
    var n := RegularWeeks(thisYear);
    seq(n, i requires 0 <= i < n => WeekUrl(base, i + 1, tail)) +
    seq(4, k requires 0 <= k < 4 => RoundUrl(base, Rounds[k], tail))
  }

  /** The two loops that build `urls`. */
  method Urls(thisYear: int, base: string, tail: string) returns (urls: seq<string>)
    ensures urls == UrlList(thisYear, base, tail)
  {
    urls := [];
    var weeks := RegularWeeks(thisYear);
    for week := 1 to weeks + 1
      invariant |urls| == week - 1
      invariant forall i :: 0 <= i < week - 1 ==> urls[i] == WeekUrl(base, i + 1, tail)
    {
      urls := urls + [WeekUrl(base, week, tail)];
    }
    for k := 0 to 4
      invariant |urls| == weeks + k
      invariant forall i :: 0 <= i < weeks ==> urls[i] == WeekUrl(base, i + 1, tail)
      invariant forall j :: 0 <= j < k ==> urls[weeks + j] == RoundUrl(base, Rounds[j], tail)
    {
      urls := urls + [RoundUrl(base, Rounds[k], tail)];
    }
  }

  // -------------------------------------------------------------------
  // week, season and teams from one row

  const IndexError := KeyMissing("list index out of range")

  /** `int(url.split('/week-')[1].split('/')[0])` on a weekly page, the
      playoff week on any page whose URL does not contain "week". */
  function WeekOfUrl(url: string, playoffWeek: int): Result<int, Error> {
    if Contains(url, "week") then
      var parts := Split(url, "/week-");
      if |parts| < 2 then Err(IndexError) else ParseInt(Split(parts[1], "/")[0])
    else Ok(playoffWeek)
  }

  /** The spread scraper's playoff week: 19 from 2022 on, 18 before. */
  function SpreadPlayoffWeek(thisYear: int): int {
    if thisYear >= 2022 then 19 else 18
  }

  /** The moneyline scraper's playoff week as written: always 18. */
  const MoneylinePlayoffWeek := 18

  /** Splitting a weekly URL on "/week-" gives the base and the rest. */
  lemma SplitAtWeekMarker(base: string, rest: string)
    requires 'w' !in base && 'w' !in rest
    ensures Split(base + "/week-" + rest, "/week-") == [base, rest]
  {
    MarkerNotBefore(base, "/week-", rest, 1);
    SplitFirst(base, "/week-", rest);
    NoCharNoOccurrence(rest, "/week-", 1);
    SplitNone(rest, "/week-");
  }

  /** The text before the first '/' of digits followed by a tail that is
      empty or starts with '/' is the digits. */
  lemma FirstSegmentIsDigits(digits: string, tail: string)
    requires AllDigits(digits)
    requires tail == [] || tail[0] == '/'
    ensures Split(digits + tail, "/")[0] == digits
  {
    assert '/' !in digits by {
      forall k | 0 <= k < |digits| ensures digits[k] != '/' { assert IsDigit(digits[k]); }
    }
    if tail == [] {
      assert digits + tail == digits;
      NoCharNoOccurrence(digits, "/", 0);
      SplitNone(digits, "/");
    } else {
      assert digits + tail == digits + "/" + tail[1..];
      MarkerNotBefore(digits, "/", tail[1..], 0);
      SplitFirst(digits, "/", tail[1..]);
    }
  }

  /** A weekly page's URL gives back its week. */
  lemma WeekOfWeekUrl(base: string, week: nat, tail: string, playoffWeek: int)
    requires 'w' !in base && 'w' !in tail
    requires tail == [] || tail[0] == '/'
    ensures WeekOfUrl(WeekUrl(base, week, tail), playoffWeek) == Ok(week)
  {
    var digits := NatToString(week);
    var rest := digits + tail;
    var url := WeekUrl(base, week, tail);
    assert url == base + "/week-" + rest;
    assert IsAt(url, "week", |base| + 1) by {
      assert url[|base|..|base| + 6] == "/week-" by {
        forall k | 0 <= k < 6 ensures url[|base| + k] == "/week-"[k] {
          assert url[|base| + k] == (base + "/week-" + rest)[|base| + k];
        }
      }
      assert url[|base| + 1..|base| + 5] == "/week-"[1..5];
    }
    ContainsAt(url, "week", |base| + 1);
    assert 'w' !in rest by {
      forall k | 0 <= k < |rest| ensures rest[k] != 'w' {
        if k < |digits| { assert IsDigit(digits[k]); } else { assert rest[k] == tail[k - |digits|]; }
      }
    }
    SplitAtWeekMarker(base, rest);
    FirstSegmentIsDigits(digits, tail);
    DigitsValueOfNatToString(week);
  }

  /** A playoff page's URL, which has no "week" in it, gets the playoff
      week. */
  lemma WeekOfRoundUrl(base: string, round: string, tail: string, playoffWeek: int)
    requires 'k' !in base && 'k' !in round && 'k' !in tail
    ensures WeekOfUrl(RoundUrl(base, round, tail), playoffWeek) == Ok(playoffWeek)
  {
    var url := RoundUrl(base, round, tail);
    assert 'k' !in url by {
      forall c | c in url ensures c != 'k' {
        assert c in base || c == '/' || c in round || c in tail;
      }
    }
    NoCharNoOccurrence(url, "week", 3);
  }

  /** The site's URL pieces contain neither 'w' nor 'k'. */
  lemma PiecesAvoidMarkers()
    ensures 'w' !in SpreadBase && 'k' !in SpreadBase && 'w' !in SpreadTail && 'k' !in SpreadTail
    ensures 'w' !in MoneylineBase && 'k' !in MoneylineBase && 'w' !in MoneylineTail && 'k' !in MoneylineTail
    ensures forall r | r in Rounds :: 'k' !in r
  {
  }

  /** Every page of both scrapers gets the week it was built for: week n
      for the n-th weekly page and the playoff week for each round. */
  lemma UrlListWeeks(thisYear: int, base: string, tail: string, playoffWeek: int, i: nat)
    requires (base, tail) == (SpreadBase, SpreadTail) || (base, tail) == (MoneylineBase, MoneylineTail)
    requires i < |UrlList(thisYear, base, tail)|
    ensures i < RegularWeeks(thisYear) ==> WeekOfUrl(UrlList(thisYear, base, tail)[i], playoffWeek) == Ok(i + 1)
    ensures i >= RegularWeeks(thisYear) ==> WeekOfUrl(UrlList(thisYear, base, tail)[i], playoffWeek) == Ok(playoffWeek)
  {
    PiecesAvoidMarkers();
    if i < RegularWeeks(thisYear) {
      WeekOfWeekUrl(base, i + 1, tail, playoffWeek);
    } else {
      var k := i - RegularWeeks(thisYear);
      assert Rounds[k] in Rounds;
      WeekOfRoundUrl(base, Rounds[k], tail, playoffWeek);
    }
  }

  /** The teams and scores of the first cell, `AWAY score @ HOME score`;
      the scores stay text. */
  datatype Matchup = Matchup(away: string, home: string, awayScore: string, homeScore: string)

  function ParseMatchup(cell: string): (r: Result<Matchup, Error>)
    ensures r.Ok? ==> |Split(cell, " @ ")| >= 2
  {
    var sides := Split(cell, " @ ");
    var awaySide := Split(sides[0], " ");
    if |sides| < 2 then Err(IndexError)
    else
      var homeSide := Split(sides[1], " ");
      if |awaySide| < 2 || |homeSide| < 2 then Err(IndexError)
      else Ok(Matchup(awaySide[0], homeSide[0], awaySide[1], homeSide[1]))
  }

  /** A cell written from teams and scores without spaces or '@' parses
      back into them. */
  lemma ParseMatchupOfCell(away: string, awayScore: string, home: string, homeScore: string)
    requires ' ' !in away && ' ' !in awayScore && ' ' !in home && ' ' !in homeScore
    requires '@' !in away && '@' !in awayScore && '@' !in home && '@' !in homeScore
    ensures ParseMatchup(away + " " + awayScore + " @ " + home + " " + homeScore)
            == Ok(Matchup(away, home, awayScore, homeScore))
  {
    var awaySide := away + " " + awayScore;
    var homeSide := home + " " + homeScore;
    assert '@' !in awaySide && '@' !in homeSide by {
      forall k | 0 <= k < |awaySide| ensures awaySide[k] != '@' {
        if k < |away| { assert awaySide[k] == away[k]; }
        else if k > |away| { assert awaySide[k] == awayScore[k - |away| - 1]; }
      }
      forall k | 0 <= k < |homeSide| ensures homeSide[k] != '@' {
        if k < |home| { assert homeSide[k] == home[k]; }
        else if k > |home| { assert homeSide[k] == homeScore[k - |home| - 1]; }
      }
    }
    var cell := away + " " + awayScore + " @ " + home + " " + homeScore;
    assert cell == awaySide + " @ " + homeSide;
    MarkerNotBefore(awaySide, " @ ", homeSide, 1);
    SplitFirst(awaySide, " @ ", homeSide);
    NoCharNoOccurrence(homeSide, " @ ", 1);
    SplitNone(homeSide, " @ ");
    assert Join([away, awayScore], " ") == awaySide;
    SplitJoin([away, awayScore], ' ');
    assert Join([home, homeScore], " ") == homeSide;
    SplitJoin([home, homeScore], ' ');
  }

  /** Python's `s[a:b]`, with bounds past the end cut back. */
  function PySlice(s: string, a: nat, b: nat): (r: string)
    requires a <= b
    ensures |r| <= b - a
  {
    if |s| <= a then [] else if |s| <= b then s[a..] else s[a..b]
  }

  /** The season of a game date: the year, or the year before for a month
      before July. */
  function SeasonOfDate(date: string): Result<int, Error> {
    var month := ParseInt(PySlice(date, 5, 7));
    if month.Err? then Err(month.error)
    else
      var year := ParseInt(PySlice(date, 0, 4));
      if year.Err? then Err(year.error)
      else Ok(if month.value < 7 then year.value - 1 else year.value)
  }

  /** On a `YYYY-MM-...` date, January to June belong to the previous
      season and July to December to the current one. */
  lemma SeasonOfIsoDate(year: nat, month: nat, rest: string)
    requires 1000 <= year <= 9999 && 1 <= month <= 12
    ensures SeasonOfDate(NatToString(year) + "-" + ZFill(NatToString(month), 2) + rest)
            == Ok(if month < 7 then year - 1 else year)
  {
    var y := NatToString(year);
    var m := ZFill(NatToString(month), 2);
    var date := y + "-" + m + rest;
    NatToStringFourDigits(year);
    assert PySlice(date, 5, 7) == m;
    assert PySlice(date, 0, 4) == y;
    ParseZFilled(month, 2);
    ParseZFilled(year, 0);
  }

  // -------------------------------------------------------------------
  // rows

  datatype Kind = SpreadPages | MoneylinePages

  datatype Row =
    | SpreadRow(season: int, week: int, home: string, away: string,
                homeScore: string, awayScore: string,
                openingHomeLine: real, closingHomeLine: real)
    | MoneylineRow(season: int, week: int, home: string, away: string,
                   openingAwayMoneyline: real, closingAwayMoneyline: real,
                   openingHomeMoneyline: real, closingHomeMoneyline: real)

  /** `float(cells[k])`, raising IndexError past the last cell. */
  function CellNumber(cells: seq<string>, k: nat): Result<real, Error> {
    if k < |cells| then ParseDecimal(cells[k]) else Err(IndexError)
  }

  /** `float(cells[k].split(' ')[0])`. */
  function CellFirstNumber(cells: seq<string>, k: nat): Result<real, Error> {
    if k < |cells| then ParseDecimal(Split(cells[k], " ")[0]) else Err(IndexError)
  }

  /** The line columns of a spread row: opening and closing home line in
      cells 5 and 6. */
  function SpreadLines(cells: seq<string>): Result<(real, real), Error> {
    var opening := CellNumber(cells, 5);
    if opening.Err? then Err(opening.error)
    else
      var closing := CellNumber(cells, 6);
      if closing.Err? then Err(closing.error) else Ok((opening.value, closing.value))
  }

  /** The moneyline columns: opening and closing away, then home, in
      cells 2 to 5. */
  function MoneylineCells(cells: seq<string>): Result<(real, real, real, real), Error> {
    var openAway := CellFirstNumber(cells, 2);
    if openAway.Err? then Err(openAway.error) else
    var closeAway := CellFirstNumber(cells, 3);
    if closeAway.Err? then Err(closeAway.error) else
    var openHome := CellFirstNumber(cells, 4);
    if openHome.Err? then Err(openHome.error) else
    var closeHome := CellFirstNumber(cells, 5);
    if closeHome.Err? then Err(closeHome.error) else
    Ok((openAway.value, closeAway.value, openHome.value, closeHome.value))
  }

  /** The playoff week each scraper uses, as written. */
  function PlayoffWeek(kind: Kind, thisYear: int): int {
    if kind == SpreadPages then SpreadPlayoffWeek(thisYear) else MoneylinePlayoffWeek
  }

  /** One table row of a page, in the order the source reads its cells:
      teams and scores, season, week, then the numbers. */
  function ParseRow(kind: Kind, thisYear: int, url: string, cells: seq<string>): (r: Result<Row, Error>)
    ensures r.Ok? ==> (kind == SpreadPages <==> r.value.SpreadRow?)
    ensures r.Ok? ==> |cells| >= 6 && ParseMatchup(cells[0]).Ok? && SeasonOfDate(cells[1]).Ok?
    ensures r.Ok? ==> WeekOfUrl(url, PlayoffWeek(kind, thisYear)) == Ok(r.value.week)
    ensures r.Ok? ==> r.value.season == SeasonOfDate(cells[1]).value
    ensures r.Ok? ==> r.value.home == ParseMatchup(cells[0]).value.home &&
                      r.value.away == ParseMatchup(cells[0]).value.away
  {
    if |cells| == 0 then Err(IndexError) else
    var matchup := ParseMatchup(cells[0]);
    if matchup.Err? then Err(matchup.error) else
    if |cells| < 2 then Err(IndexError) else
    var season := SeasonOfDate(cells[1]);
    if season.Err? then Err(season.error) else
    var week := WeekOfUrl(url, PlayoffWeek(kind, thisYear));
    if week.Err? then Err(week.error) else
    var m := matchup.value;
    match kind
    case SpreadPages =>
      var lines := SpreadLines(cells);
      if lines.Err? then Err(lines.error)
      else Ok(SpreadRow(season.value, week.value, m.home, m.away, m.homeScore, m.awayScore,
                        lines.value.0, lines.value.1))
    case MoneylinePages =>
      var mls := MoneylineCells(cells);
      if mls.Err? then Err(mls.error)
      else Ok(MoneylineRow(season.value, week.value, m.home, m.away,
                           mls.value.0, mls.value.1, mls.value.2, mls.value.3))
  }

  // -------------------------------------------------------------------
  // the scrape

  /** The rows of a page: the rows of class `odd`, then those of class
      `even`, each a list of cell texts. */
  datatype Page = Page(odd: seq<seq<string>>, even: seq<seq<string>>)

  /** One more table row: a parsed row is appended, an error raises. */
  function PageNext(prev: Result<seq<Row>, Error>, kind: Kind, thisYear: int, url: string, cells: seq<string>): Result<seq<Row>, Error> {
    if prev.Err? then prev
    else
      var row := ParseRow(kind, thisYear, url, cells);
      if row.Err? then Err(row.error) else Ok(prev.value + [row.value])
  }

  /** The rows parsed from a page's table rows, in order; the first row
      that fails to parse raises, which ends the whole scrape. */
  function PageSpec(kind: Kind, thisYear: int, url: string, trs: seq<seq<string>>): Result<seq<Row>, Error> {
    if |trs| == 0 then Ok([])
    else PageNext(PageSpec(kind, thisYear, url, trs[..|trs| - 1]), kind, thisYear, url, trs[|trs| - 1])
  }

  /** One more page: skipped when it could not be fetched, otherwise its
      rows are appended. */
  function ScrapeNext(prev: Result<seq<Row>, Error>, kind: Kind, thisYear: int, url: string,
                      fetch: string -> Option<Page>): Result<seq<Row>, Error> {
    if prev.Err? then prev
    else match fetch(url)
      case None => prev
      case Some(page) =>
        var rows := PageSpec(kind, thisYear, url, page.odd + page.even);
        if rows.Err? then rows else Ok(prev.value + rows.value)
  }

  /** The rows of all pages in URL order. */
  function ScrapeSpec(kind: Kind, thisYear: int, urls: seq<string>, fetch: string -> Option<Page>): Result<seq<Row>, Error> {
    if |urls| == 0 then Ok([])
    else ScrapeNext(ScrapeSpec(kind, thisYear, urls[..|urls| - 1], fetch), kind, thisYear, urls[|urls| - 1], fetch)
  }

  /** Once a row has raised, nothing later changes the outcome. */
  lemma {:induction false} PageErrorPersists(kind: Kind, thisYear: int, url: string, trs: seq<seq<string>>, i: nat)
    requires i <= |trs| && PageSpec(kind, thisYear, url, trs[..i]).Err?
    ensures PageSpec(kind, thisYear, url, trs) == PageSpec(kind, thisYear, url, trs[..i])
    decreases |trs|
  {
    if i < |trs| {
      var init := trs[..|trs| - 1];
      assert init[..i] == trs[..i];
      PageErrorPersists(kind, thisYear, url, init, i);
    } else {
      assert trs[..i] == trs;
    }
  }

  lemma {:induction false} ScrapeErrorPersists(kind: Kind, thisYear: int, urls: seq<string>,
                                                fetch: string -> Option<Page>, i: nat)
    requires i <= |urls| && ScrapeSpec(kind, thisYear, urls[..i], fetch).Err?
    ensures ScrapeSpec(kind, thisYear, urls, fetch) == ScrapeSpec(kind, thisYear, urls[..i], fetch)
    decreases |urls|
  {
    if i < |urls| {
      var init := urls[..|urls| - 1];
      assert init[..i] == urls[..i];
      ScrapeErrorPersists(kind, thisYear, init, fetch, i);
    } else {
      assert urls[..i] == urls;
    }
  }

  /** The loop over one page's table rows. */
  method ParsePage(kind: Kind, thisYear: int, url: string, trs: seq<seq<string>>) returns (r: Result<seq<Row>, Error>)
    ensures r == PageSpec(kind, thisYear, url, trs)
  {
    var rows: seq<Row> := [];
    for i := 0 to |trs|
      invariant PageSpec(kind, thisYear, url, trs[..i]) == Ok(rows)
    {
      assert trs[..i + 1][..i] == trs[..i];
      var row := ParseRow(kind, thisYear, url, trs[i]);
      if row.Err? {
        PageErrorPersists(kind, thisYear, url, trs, i + 1);
        return Err(row.error);
      }
      rows := rows + [row.value];
    }
    assert trs[..|trs|] == trs;
    r := Ok(rows);
  }

  /** The loop over pages of scrape_spreads / scrape_mls. */
  method Scrape(kind: Kind, thisYear: int, urls: seq<string>, fetch: string -> Option<Page>)
    returns (r: Result<seq<Row>, Error>)
    ensures r == ScrapeSpec(kind, thisYear, urls, fetch)
  {
    var rows: seq<Row> := [];
    for i := 0 to |urls|
      invariant ScrapeSpec(kind, thisYear, urls[..i], fetch) == Ok(rows)
    {
      assert urls[..i + 1][..i] == urls[..i];
      assert ScrapeSpec(kind, thisYear, urls[..i + 1], fetch) == ScrapeNext(Ok(rows), kind, thisYear, urls[i], fetch);
      var page := fetch(urls[i]);
      if page.Some? {
        var got := ParsePage(kind, thisYear, urls[i], page.value.odd + page.value.even);
        if got.Err? {
          ScrapeErrorPersists(kind, thisYear, urls, fetch, i + 1);
          return got;
        }
        rows := rows + got.value;
      }
    }
    assert urls[..|urls|] == urls;
    r := Ok(rows);
  }

  /** Every row a scrape returns was parsed from one of its pages. */
  lemma {:induction false} ScrapedRowsCarryPageWeeks(kind: Kind, thisYear: int, urls: seq<string>,
                                                     fetch: string -> Option<Page>, x: Row)
    requires ScrapeSpec(kind, thisYear, urls, fetch).Ok? && x in ScrapeSpec(kind, thisYear, urls, fetch).value
    ensures exists u :: u in urls && WeekOfUrl(u, PlayoffWeek(kind, thisYear)) == Ok(x.week)
  {
    var prev := ScrapeSpec(kind, thisYear, urls[..|urls| - 1], fetch);
    var url := urls[|urls| - 1];
    if x in prev.value {
      ScrapedRowsCarryPageWeeks(kind, thisYear, urls[..|urls| - 1], fetch, x);
      var u :| u in urls[..|urls| - 1] && WeekOfUrl(u, PlayoffWeek(kind, thisYear)) == Ok(x.week);
      assert u in urls;
    } else {
      var page := fetch(url).value;
      PageRowsCarryWeek(kind, thisYear, url, page.odd + page.even, x);
    }
  }

  lemma {:induction false} PageRowsCarryWeek(kind: Kind, thisYear: int, url: string, trs: seq<seq<string>>, x: Row)
    requires PageSpec(kind, thisYear, url, trs).Ok? && x in PageSpec(kind, thisYear, url, trs).value
    ensures WeekOfUrl(url, PlayoffWeek(kind, thisYear)) == Ok(x.week)
  {
    var prev := PageSpec(kind, thisYear, url, trs[..|trs| - 1]);
    if x in prev.value {
      PageRowsCarryWeek(kind, thisYear, url, trs[..|trs| - 1], x);
    }
  }

  /** scrape_spreads: the spread pages of the current year. */
  method ScrapeSpreads(thisYear: int, fetch: string -> Option<Page>) returns (r: Result<seq<Row>, Error>)
    ensures r == ScrapeSpec(SpreadPages, thisYear, UrlList(thisYear, SpreadBase, SpreadTail), fetch)
  {
    var urls := Urls(thisYear, SpreadBase, SpreadTail);
    r := Scrape(SpreadPages, thisYear, urls, fetch);
  }

  /** scrape_mls: the moneyline pages of the current year. */
  method ScrapeMoneylines(thisYear: int, fetch: string -> Option<Page>) returns (r: Result<seq<Row>, Error>)
    ensures r == ScrapeSpec(MoneylinePages, thisYear, UrlList(thisYear, MoneylineBase, MoneylineTail), fetch)
  {
    var urls := Urls(thisYear, MoneylineBase, MoneylineTail);
    r := Scrape(MoneylinePages, thisYear, urls, fetch);
  }

  // -------------------------------------------------------------------
  // the merge

  /** `replace(tfl_team_dict)`: listed abbreviations are renamed. */
  function RenameTeam(teams: map<string, string>, t: string): (r: string)
    ensures t in teams ==> r == teams[t]
    ensures t !in teams ==> r == t
  {
    if t in teams then teams[t] else t
  }

  function RenameRow(teams: map<string, string>, x: Row): (r: Row)
    ensures r.home == RenameTeam(teams, x.home) && r.away == RenameTeam(teams, x.away)
    ensures r.season == x.season && r.week == x.week && r.SpreadRow? == x.SpreadRow?
  {
    x.(home := RenameTeam(teams, x.home), away := RenameTeam(teams, x.away))
  }

  predicate SameGame(a: Row, b: Row) {
    a.season == b.season && a.week == b.week && a.home == b.home && a.away == b.away
  }

  /** The first moneyline row of the same season, week and teams. */
  function MatchMoneyline(x: Row, mls: seq<Row>): (r: Option<Row>)
    ensures r.Some? ==> r.value in mls && SameGame(x, r.value)
    ensures r.None? <==> forall j :: 0 <= j < |mls| ==> !SameGame(x, mls[j])
  {
    if |mls| == 0 then None
    else if SameGame(x, mls[0]) then Some(mls[0])
    else MatchMoneyline(x, mls[1..])
  }

  datatype Merged = Merged(spread: Row, moneyline: Option<Row>)

  /** The left merge on season, week and both teams, after renaming the
      teams of both tables. */
  function MergeLines(teams: map<string, string>, spreads: seq<Row>, mls: seq<Row>): (r: seq<Merged>)
    ensures |r| == |spreads|
    ensures forall i :: 0 <= i < |r| ==> r[i].spread == RenameRow(teams, spreads[i])
    ensures forall i :: 0 <= i < |r| ==> r[i].moneyline == MatchMoneyline(RenameRow(teams, spreads[i]), RenameMoneylines(teams, mls))
  {
    seq(|spreads|, i requires 0 <= i < |spreads| =>
      Merged(RenameRow(teams, spreads[i]), MatchMoneyline(RenameRow(teams, spreads[i]), RenameMoneylines(teams, mls))))
  }

  function RenameMoneylines(teams: map<string, string>, mls: seq<Row>): (r: seq<Row>)
    ensures |r| == |mls|
    ensures forall j :: 0 <= j < |mls| ==> r[j] == RenameRow(teams, mls[j])
  {
    seq(|mls|, j requires 0 <= j < |mls| => RenameRow(teams, mls[j]))
  }

  /** A spread row whose week no moneyline row has gets no moneylines. */
  lemma UnmatchedWeekHasNoMoneyline(teams: map<string, string>, spreads: seq<Row>, mls: seq<Row>, i: nat)
    requires i < |spreads|
    requires forall j :: 0 <= j < |mls| ==> mls[j].week != spreads[i].week
    ensures MergeLines(teams, spreads, mls)[i].moneyline.None?
  {
    var renamed := RenameMoneylines(teams, mls);
    assert forall j :: 0 <= j < |renamed| ==> !SameGame(RenameRow(teams, spreads[i]), renamed[j]);
  }

  /** From 2022 on the two scrapers label the same playoff page
      differently: the spread rows get week 19 and the moneyline rows
      week 18, so no playoff spread row can find its moneylines. */
  lemma PlayoffWeeksDisagree(thisYear: int, k: nat)
    requires thisYear >= 2022 && k < 4
    ensures WeekOfUrl(RoundUrl(SpreadBase, Rounds[k], SpreadTail), PlayoffWeek(SpreadPages, thisYear)) == Ok(19)
    ensures WeekOfUrl(RoundUrl(MoneylineBase, Rounds[k], MoneylineTail), PlayoffWeek(MoneylinePages, thisYear)) == Ok(18)
  {
    PiecesAvoidMarkers();
    assert Rounds[k] in Rounds;
    WeekOfRoundUrl(SpreadBase, Rounds[k], SpreadTail, 19);
    WeekOfRoundUrl(MoneylineBase, Rounds[k], MoneylineTail, 18);
  }

  /** Every moneyline row scraped from 2022 on has a week of at most 18. */
  lemma MoneylineWeeksAtMost18(thisYear: int, fetch: string -> Option<Page>, x: Row)
    requires thisYear >= 2022
    requires var r := ScrapeSpec(MoneylinePages, thisYear, UrlList(thisYear, MoneylineBase, MoneylineTail), fetch);
             r.Ok? && x in r.value
    ensures x.week <= 18
  {
    var urls := UrlList(thisYear, MoneylineBase, MoneylineTail);
    ScrapedRowsCarryPageWeeks(MoneylinePages, thisYear, urls, fetch, x);
    var u :| u in urls && WeekOfUrl(u, PlayoffWeek(MoneylinePages, thisYear)) == Ok(x.week);
    var i :| 0 <= i < |urls| && urls[i] == u;
    UrlListWeeks(thisYear, MoneylineBase, MoneylineTail, PlayoffWeek(MoneylinePages, thisYear), i);
  }

  /** The evidently intended moneyline playoff week: the spread scraper's
      rule. */
  function MoneylinePlayoffWeekIntended(thisYear: int): int {
    SpreadPlayoffWeek(thisYear)
  }

  /** With the intended rule both scrapers label each playoff page with the
      same week, in every year. */
  lemma PlayoffWeeksAgreeIntended(thisYear: int, k: nat)
    requires k < 4
    ensures WeekOfUrl(RoundUrl(SpreadBase, Rounds[k], SpreadTail), PlayoffWeek(SpreadPages, thisYear))
         == WeekOfUrl(RoundUrl(MoneylineBase, Rounds[k], MoneylineTail), MoneylinePlayoffWeekIntended(thisYear))
  {
    PiecesAvoidMarkers();
    assert Rounds[k] in Rounds;
    WeekOfRoundUrl(SpreadBase, Rounds[k], SpreadTail, SpreadPlayoffWeek(thisYear));
    WeekOfRoundUrl(MoneylineBase, Rounds[k], MoneylineTail, SpreadPlayoffWeek(thisYear));
  }
}
