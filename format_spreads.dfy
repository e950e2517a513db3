/** The market-data formatter: which source's opening and closing line a
    game gets, the win probability implied by its moneylines, the grid of
    half-point spreads that turns a closing line and its price into a win
    probability, the market's rating difference, and the clamps on bad
    lines. */
module FormatSpreads {
  import opened Wrappers
  import opened Numerics
  import SpreadTranslation
  import PullTfl

  // -------------------------------------------------------------------
  // games kept, and the TFL season type

  /** Only games whose home team is a configured team are kept (this drops
      the Pro Bowl), in their order. */
  function KeepHomes<G>(games: seq<G>, home: G -> string, teams: set<string>): (r: seq<G>)
    ensures |r| <= |games|
    ensures forall k :: 0 <= k < |r| ==> home(r[k]) in teams
    ensures forall g :: g in games && home(g) in teams ==> g in r
  {
    if |games| == 0 then []
    else
      var n := |games| - 1;
      KeepHomes(games[..n], home, teams) + (if home(games[n]) in teams then [games[n]] else [])
  }

  datatype SeasonType = Reg | Post

  /** A TFL row is a playoff row when its week is the scraper's playoff week:
      19 from the 2021 season on, 18 before. */
  function TflType(season: int, week: int): SeasonType {
    if season > 2020 then (if week == 19 then Post else Reg)
    else if week == 18 then Post else Reg
  }

  /** The scraper labels every playoff page with a week chosen by the year
      of the scrape, and every run rescrapes all seasons. A playoff row of
      the 2021 season or later is read as a playoff row whenever it is
      scraped; one of an earlier season only when scraped before 2022, so
      from 2022 on every pre-2021 playoff row is typed `reg`. */
  lemma TflPlayoffRowsAsWritten(season: int, scrapeYear: int)
    requires scrapeYear > season
    ensures season > 2020 ==> TflType(season, PullTfl.SpreadPlayoffWeek(scrapeYear)) == Post
    ensures season <= 2020 ==>
      (TflType(season, PullTfl.SpreadPlayoffWeek(scrapeYear)) == Post <==> scrapeYear < 2022)
    ensures TflType(2019, PullTfl.SpreadPlayoffWeek(2024)) == Reg
  {
  }

  /** The playoff week as evidently intended: chosen by the season of the
      row, as the formatter reads it, not by the year of the scrape. */
  function IntendedPlayoffWeek(season: int): (w: int)
    ensures w == PullTfl.SpreadPlayoffWeek(season + 1)
  {
    if season > 2020 then 19 else 18
  }

  /** With the intended week every playoff row is typed `post` and the
      week before it `reg`, for every season, whenever it is scraped. */
  lemma TflPlayoffWeekIntendedIsPost(season: int)
    ensures TflType(season, IntendedPlayoffWeek(season)) == Post
    ensures TflType(season, IntendedPlayoffWeek(season) - 1) == Reg
  {
  }

  // -------------------------------------------------------------------
  // line priority

  /** The first present value of a list, as chained `combine_first`. */
  function FirstPresent(xs: seq<Option<real>>): (r: Option<real>)
    ensures r.None? <==> forall k :: 0 <= k < |xs| ==> xs[k].None?
  {
    if |xs| == 0 then None
    else if xs[0].Some? then xs[0]
    else FirstPresent(xs[1..])
  }

  /** The value chosen is the present one that comes first. */
  lemma {:induction false} FirstPresentAt(xs: seq<Option<real>>, k: nat)
    requires k < |xs| && xs[k].Some?
    requires forall j :: 0 <= j < k ==> xs[j].None?
    ensures FirstPresent(xs) == xs[k]
  {
    if k > 0 {
      FirstPresentAt(xs[1..], k - 1);
    }
  }

  /** Three chained `combine_first` calls pick the first present of four. */
  lemma FirstPresentOfFour(a: Option<real>, b: Option<real>, c: Option<real>, d: Option<real>)
    ensures FirstPresent([a, b, c, d]) == CombineFirst(CombineFirst(CombineFirst(a, b), c), d)
  {
    assert [d][1..] == [];
    assert FirstPresent([d]) == d;
    assert [c, d][1..] == [d];
    assert FirstPresent([c, d]) == CombineFirst(c, d);
    assert [b, c, d][1..] == [c, d];
    assert FirstPresent([b, c, d]) == CombineFirst(b, CombineFirst(c, d));
    assert [a, b, c, d][1..] == [b, c, d];
    assert FirstPresent([a, b, c, d]) == CombineFirst(a, CombineFirst(b, CombineFirst(c, d)));
  }

  /** A game's lines from each source; `None` is NaN. */
  datatype Lines = Lines(open: Option<real>, close: Option<real>)

  /** The opening line: TFL, else VI, else SBR, else the nflfastR line. */
  function OpenLine(tfl: Lines, vi: Lines, sbr: Lines, fastR: Option<real>): (r: Option<real>)
    ensures r == FirstPresent([tfl.open, vi.open, sbr.open, fastR])
  {
    FirstPresentOfFour(tfl.open, vi.open, sbr.open, fastR);
    CombineFirst(CombineFirst(CombineFirst(tfl.open, vi.open), sbr.open), fastR)
  }

  /** The closing line: VI, else SBR, else the nflfastR line, else TFL. */
  function CloseLine(tfl: Lines, vi: Lines, sbr: Lines, fastR: Option<real>): (r: Option<real>)
    ensures r == FirstPresent([vi.close, sbr.close, fastR, tfl.close])
  {
    FirstPresentOfFour(vi.close, sbr.close, fastR, tfl.close);
    CombineFirst(CombineFirst(CombineFirst(vi.close, sbr.close), fastR), tfl.close)
  }

  // -------------------------------------------------------------------
  // moneylines

  /** The probability a moneyline implies, hold included: -ml / (100 - ml)
      for a favourite, 100 / (100 + ml) otherwise. */
  function MoneylineProb(ml: real): (r: real)
    ensures 0.0 < r <= 1.0
    ensures ml != 0.0 ==> r < 1.0
    ensures ml <= -100.0 ==> r >= 0.5
    ensures ml >= 100.0 ==> r <= 0.5
  {
    if ml < 0.0 then
      var r := (-1.0 * ml) / (100.0 - ml);
      assert r * (100.0 - ml) == -ml;
      r
    else
      var r := 100.0 / (100.0 + ml);
      assert r * (100.0 + ml) == 100.0;
      r
  }

  datatype MoneylineWp = MoneylineWp(home: real, away: real, hold: real)

  /** `moneyline_hold` is one minus the two implied probabilities, so it
      is negative when they add up to more than one; half of it is added
      to each side. NaN when either moneyline is. */
  function HoldAdjusted(homeMl: Option<real>, awayMl: Option<real>): (r: Option<MoneylineWp>)
    ensures r.Some? <==> homeMl.Some? && awayMl.Some?
    ensures r.Some? ==> r.value.home + r.value.away == 1.0
    ensures r.Some? ==> r.value.hold == 1.0 - (MoneylineProb(homeMl.value) + MoneylineProb(awayMl.value))
    ensures r.Some? ==> 0.0 < r.value.home < 1.0 && 0.0 < r.value.away < 1.0
    ensures r.Some? ==> (r.value.home > r.value.away <==> MoneylineProb(homeMl.value) > MoneylineProb(awayMl.value))
  {
    if homeMl.None? || awayMl.None? then None
    else
      var h := MoneylineProb(homeMl.value);
      var a := MoneylineProb(awayMl.value);
      var hold := 1.0 - (a + h);
      Some(MoneylineWp(0.5 * hold + h, 0.5 * hold + a, hold))
  }

  // -------------------------------------------------------------------
  // the half-point spread grid

  /** One row of the spread-multiples table. */
  datatype Multiple = Multiple(spread: real, winProb: real)

  function MinSpread(table: seq<Multiple>): (r: real)
    requires |table| > 0
    ensures forall k :: 0 <= k < |table| ==> r <= table[k].spread
    ensures exists k :: 0 <= k < |table| && r == table[k].spread
  {
    if |table| == 1 then table[0].spread
    else
      var rest := MinSpread(table[1..]);
      assert forall k :: 1 <= k < |table| ==> table[k] == table[1..][k - 1];
      if table[0].spread <= rest then table[0].spread else rest
  }

  function MaxSpread(table: seq<Multiple>): (r: real)
    requires |table| > 0
    ensures forall k :: 0 <= k < |table| ==> table[k].spread <= r
  {
    if |table| == 1 then table[0].spread
    else
      var rest := MaxSpread(table[1..]);
      assert forall k :: 1 <= k < |table| ==> table[k] == table[1..][k - 1];
      if table[0].spread >= rest then table[0].spread else rest
  }

  /** The loop from the smallest to the largest spread in half points. */
  method SpreadGrid(lo: real, hi: real) returns (grid: seq<real>)
    ensures forall k :: 0 <= k < |grid| ==> grid[k] == lo + 0.5 * k as real && grid[k] <= hi
    ensures lo + 0.5 * |grid| as real > hi
  {
    grid := [];
    var cur := lo;
    ghost var steps := if hi < lo then 0 else ((hi - lo) * 2.0).Floor + 1;
    while cur <= hi
      invariant cur == lo + 0.5 * |grid| as real
      invariant forall k :: 0 <= k < |grid| ==> grid[k] == lo + 0.5 * k as real && grid[k] <= hi
      invariant |grid| <= steps
      decreases steps - |grid|
    {
      assert (hi - lo) * 2.0 >= |grid| as real;
      grid := grid + [cur];
      cur := cur + 0.5;
    }
  }

  /** The grid of the table; an empty table has NaN bounds and no grid. */
  method TableGrid(table: seq<Multiple>) returns (grid: seq<real>)
    ensures |table| == 0 ==> grid == []
    ensures |table| > 0 ==> |grid| > 0 && grid[0] == MinSpread(table)
    ensures forall k :: 0 <= k < |grid| ==> grid[k] == grid[0] + 0.5 * k as real
    ensures |table| > 0 ==> forall k :: 0 <= k < |grid| ==> grid[k] <= MaxSpread(table)
  {
    if |table| == 0 {
      return [];
    }
    grid := SpreadGrid(MinSpread(table), MaxSpread(table));
  }

  /** A grid spread with a win probability, NaN before filling. */
  datatype GridRow = GridRow(spread: real, winProb: Option<real>)

  /** The table's win probabilities at one spread, or one NaN row when it
      has none (the left merge). */
  function Matches(table: seq<Multiple>, s: real): (r: seq<Option<real>>)
    ensures |r| >= 1
  {
    var found := MatchesFound(table, s);
    if |found| == 0 then [None] else found
  }

  function MatchesFound(table: seq<Multiple>, s: real): seq<Option<real>> {
    if |table| == 0 then []
    else
      var n := |table| - 1;
      MatchesFound(table[..n], s) + (if table[n].spread == s then [Some(table[n].winProb)] else [])
  }

  /** The merged grid rows, spread by spread. */
  function GridRows(grid: seq<real>, table: seq<Multiple>): seq<GridRow> {
    if |grid| == 0 then []
    else
      var n := |grid| - 1;
      GridRows(grid[..n], table) + seq(|Matches(table, grid[n])|, k requires 0 <= k < |Matches(table, grid[n])| =>
                                        GridRow(grid[n], Matches(table, grid[n])[k]))
  }

  /** `ffill`: a NaN takes the nearest present value before it. */
  function FillForward(xs: seq<Option<real>>): (r: seq<Option<real>>)
    ensures |r| == |xs|
    ensures forall k :: 0 <= k < |xs| && xs[k].Some? ==> r[k] == xs[k]
  {
    if |xs| == 0 then []
    else
      var n := |xs| - 1;
      var prev := FillForward(xs[..n]);
      prev + [if xs[n].Some? then xs[n] else if n > 0 then prev[n - 1] else None]
  }

  /** `bfill`: a NaN takes the nearest present value after it. */
  function FillBackward(xs: seq<Option<real>>): (r: seq<Option<real>>)
    ensures |r| == |xs|
    ensures forall k :: 0 <= k < |xs| && xs[k].Some? ==> r[k] == xs[k]
  {
    if |xs| == 0 then []
    else
      var rest := FillBackward(xs[1..]);
      [if xs[0].Some? then xs[0] else if |rest| > 0 then rest[0] else None] + rest
  }

  /** After `ffill`, everything from the first present value on is present. */
  lemma {:induction false} FillForwardFromFirst(xs: seq<Option<real>>, i: nat)
    requires i < |xs| && xs[i].Some?
    ensures forall k :: i <= k < |xs| ==> FillForward(xs)[k].Some?
  {
    if i < |xs| - 1 {
      var n := |xs| - 1;
      FillForwardFromFirst(xs[..n], i);
      assert FillForward(xs)[..n] == FillForward(xs[..n]);
    }
  }

  /** After `bfill`, everything up to a present value is present. */
  lemma {:induction false} FillBackwardToLast(xs: seq<Option<real>>, i: nat)
    requires i < |xs| && xs[i].Some?
    ensures forall k :: 0 <= k <= i ==> FillBackward(xs)[k].Some?
  {
    if i > 0 {
      FillBackwardToLast(xs[1..], i - 1);
      assert FillBackward(xs)[1..] == FillBackward(xs[1..]);
    }
  }

  /** `ffill().bfill()` leaves no NaN when any value is present, and keeps
      every present value. */
  lemma FillLeavesNoGap(xs: seq<Option<real>>, i: nat)
    requires i < |xs| && xs[i].Some?
    ensures forall k :: 0 <= k < |xs| ==> FillBackward(FillForward(xs))[k].Some?
  {
    var f := FillForward(xs);
    FillForwardFromFirst(xs, i);
    FillBackwardToLast(f, |xs| - 1);
  }

  /** The grid rows with their win probabilities filled. */
  function FilledRows(grid: seq<real>, table: seq<Multiple>): (r: seq<GridRow>)
    ensures |r| == |GridRows(grid, table)|
  {
    var rows := GridRows(grid, table);
    var filled := FillBackward(FillForward(seq(|rows|, k requires 0 <= k < |rows| => rows[k].winProb)));
    seq(|rows|, k requires 0 <= k < |rows| => GridRow(rows[k].spread, filled[k]))
  }

  // -------------------------------------------------------------------
  // the low / mid / high band of a spread

  datatype Band = Band(low: real, mid: real, high: real)

  /** The present win probabilities of the rows at one spread. */
  function ValuesAt(rows: seq<GridRow>, s: real): seq<real> {
    if |rows| == 0 then []
    else
      var n := |rows| - 1;
      ValuesAt(rows[..n], s) + (if rows[n].spread == s && rows[n].winProb.Some? then [rows[n].winProb.value] else [])
  }

  function Least(vs: seq<real>): (r: real)
    requires |vs| > 0
    ensures forall k :: 0 <= k < |vs| ==> r <= vs[k]
  {
    if |vs| == 1 then vs[0]
    else
      var rest := Least(vs[1..]);
      assert forall k :: 1 <= k < |vs| ==> vs[k] == vs[1..][k - 1];
      Min(vs[0], rest)
  }

  function Most(vs: seq<real>): (r: real)
    requires |vs| > 0
    ensures forall k :: 0 <= k < |vs| ==> vs[k] <= r
  {
    if |vs| == 1 then vs[0]
    else
      var rest := Most(vs[1..]);
      assert forall k :: 1 <= k < |vs| ==> vs[k] == vs[1..][k - 1];
      Max(vs[0], rest)
  }

  /** The group's min, mean and max; NaN for a spread with no row (a
      closing line off the grid). */
  function BandOf(rows: seq<GridRow>, s: real): (r: Option<Band>)
    ensures r.Some? <==> |ValuesAt(rows, s)| > 0
  {
    var vs := ValuesAt(rows, s);
    if |vs| == 0 then None else Some(Band(Least(vs), Sum(vs) / |vs| as real, Most(vs)))
  }

  /** The sum of a group lies between its size times its min and its size
      times its max. */
  lemma {:induction false} SumWithin(vs: seq<real>)
    requires |vs| > 0
    ensures ScaledWithin(Least(vs), Most(vs), Sum(vs), |vs| as real)
  {
    if |vs| > 1 {
      var rest := vs[1..];
      SumWithin(rest);
      var n := |rest| as real;
      var m := |vs| as real;
      var lo, hi, lr, hr := Least(vs), Most(vs), Least(rest), Most(rest);
      var a, s := vs[0], Sum(rest);
      assert m == n + 1.0;
      assert lo == Min(a, lr) && hi == Max(a, hr);
      assert Sum(vs) == a + s;
      StepWithin(lo, hi, a, lr, hr, s, n, m);
    }
  }

  /** One more value keeps both bounds on a sum. */
  lemma StepWithin(lo: real, hi: real, a: real, lr: real, hr: real, s: real, n: real, m: real)
    requires n >= 0.0 && m == n + 1.0
    requires lo == Min(a, lr) && hi == Max(a, hr)
    requires ScaledWithin(lr, hr, s, n)
    ensures ScaledWithin(lo, hi, a + s, m)
  {
    LowerStep(lo, a, lr, s, n, m);
    UpperStep(hi, a, hr, s, n, m);
  }

  /** One more value keeps the lower bound on a sum. */
  lemma LowerStep(lo: real, a: real, lr: real, s: real, n: real, m: real)
    requires n >= 0.0 && m == n + 1.0 && lo <= a && lo <= lr && lr * n <= s
    ensures lo * m <= a + s
  {
    MulKeepsLe(n, lo, lr);
    assert lo * m == n * lo + lo;
    assert lr * n == n * lr;
  }

  /** One more value keeps the upper bound on a sum. */
  lemma UpperStep(hi: real, a: real, hr: real, s: real, n: real, m: real)
    requires n >= 0.0 && m == n + 1.0 && a <= hi && hr <= hi && s <= hr * n
    ensures a + s <= hi * m
  {
    MulKeepsLe(n, hr, hi);
    assert hi * m == n * hi + hi;
    assert hr * n == n * hr;
  }

  /** The band is ordered: low <= mid <= high. */
  lemma BandOrdered(rows: seq<GridRow>, s: real)
    requires BandOf(rows, s).Some?
    ensures BandOf(rows, s).value.low <= BandOf(rows, s).value.mid <= BandOf(rows, s).value.high
  {
    var vs := ValuesAt(rows, s);
    SumWithin(vs);
    QuotientBetween(Sum(vs), |vs| as real, Least(vs), Most(vs));
  }

  // -------------------------------------------------------------------
  // the spread-implied win probability

  /** The band's value for the price of the home spread: no price gives
      the mid, a price better than -110 the low, exactly -110 the mid, and a
      heavier price the high. */
  function SpreadImpliedWp(odds: Option<real>, band: Option<Band>): (r: Option<real>)
    ensures band.None? ==> r.None?
    ensures band.Some? ==> r.Some? && (r.value == band.value.low || r.value == band.value.mid || r.value == band.value.high)
  {
    if band.None? then None
    else if odds.None? then Some(band.value.mid)
    else if odds.value > -110.0 then Some(band.value.low)
    else if odds.value == -110.0 then Some(band.value.mid)
    else Some(band.value.high)
  }

  /** On an ordered band, more juice on the home side never gives it a
      smaller win probability. */
  lemma SpreadImpliedWpMonotone(a: real, b: real, band: Band)
    requires band.low <= band.mid <= band.high
    requires a <= b
    ensures SpreadImpliedWp(Some(b), Some(band)).value <= SpreadImpliedWp(Some(a), Some(band)).value
  {
  }

  // -------------------------------------------------------------------
  // the market probability and rating difference

  /** `-400 * log10(1 / p - 1)`, NaN for a NaN probability; the infinite
      value at p == 0 is read as NaN too. */
  function MarketEloDif(m: Math, p: Option<real>): (r: Option<real>)
    ensures r.Some? <==> p.Some? && p.value != 0.0
    ensures r.Some? ==> SpreadTranslation.ProbToElo(m, p.value, 400.0) == Ok(r.value)
  {
    if p.None? || p.value == 0.0 then None else Some(-400.0 * m.log10(1.0 / p.value - 1.0))
  }

  // -------------------------------------------------------------------
  // clamps

  /** The closing line clamped to [-51, 51]; NaN stays NaN. */
  function ClampClose(close: Option<real>): (r: Option<real>)
    ensures r.Some? <==> close.Some?
    ensures r.Some? ==> -51.0 <= r.value <= 51.0
    ensures r.Some? && -51.0 <= close.value <= 51.0 ==> r == close
  {
    if close.None? then None else Some(Max(-51.0, Min(51.0, close.value)))
  }

  /** An opening line outside [-51, 51] is replaced by the clamped close;
      NaN stays NaN. */
  function FixOpen(open: Option<real>, clampedClose: Option<real>): (r: Option<real>)
    ensures open.None? ==> r.None?
    ensures open.Some? && -51.0 <= open.value <= 51.0 ==> r == open
    ensures open.Some? && !(-51.0 <= open.value <= 51.0) ==> r == clampedClose
  {
    if open.Some? && (open.value > 51.0 || open.value < -51.0) then clampedClose else open
  }

  // -------------------------------------------------------------------
  // one game

  /** The columns of a game the formatter reads; `None` is NaN. */
  datatype Game = Game(
    homeTeam: string, location: string, spreadLine: Option<real>,
    homeMl: Option<real>, awayMl: Option<real>, homeSpreadOdds: Option<real>,
    tfl: Lines, vi: Lines, sbr: Lines)

  /** The win-probability columns of a game. */
  datatype Market = Market(homeMlWp: Option<real>, awayMlWp: Option<real>, spreadWp: Option<real>,
                           marketWp: Option<real>, marketEloDif: Option<real>)

  datatype MarketRow = MarketRow(homeLineOpen: Option<real>, homeLineClose: Option<real>, neutralField: int, market: Market)

  function Negated(x: Option<real>): Option<real> {
    if x.None? then None else Some(-x.value)
  }

  /** The moneyline probabilities are preferred to the spread-implied one,
      and the market's rating difference is read off the chosen one. */
  function MarketColumns(m: Math, homeMl: Option<real>, awayMl: Option<real>, spreadWp: Option<real>): (r: Market)
    ensures r.homeMlWp.Some? <==> homeMl.Some? && awayMl.Some?
    ensures r.homeMlWp.Some? ==> r.awayMlWp.Some? && r.marketWp == r.homeMlWp && r.homeMlWp.value + r.awayMlWp.value == 1.0
    ensures r.homeMlWp.None? ==> r.marketWp == spreadWp
    ensures r.marketEloDif.Some? ==> r.marketWp.Some? && SpreadTranslation.ProbToElo(m, r.marketWp.value, 400.0) == Ok(r.marketEloDif.value)
    ensures r.homeMlWp.Some? ==> r.marketEloDif.Some?
  {
    var ml := HoldAdjusted(homeMl, awayMl);
    var homeWp := if ml.Some? then Some(ml.value.home) else None;
    var awayWp := if ml.Some? then Some(ml.value.away) else None;
    var market := CombineFirst(homeWp, spreadWp);
    Market(homeWp, awayWp, spreadWp, market, MarketEloDif(m, market))
  }

  /** One game's formatted market columns; the spread band is looked up at
      the closing line before it is clamped. */
  function FormatGame(m: Math, g: Game, rows: seq<GridRow>): (r: MarketRow)
    ensures r.homeLineOpen.Some? ==> -51.0 <= r.homeLineOpen.value <= 51.0
    ensures r.homeLineClose.Some? ==> -51.0 <= r.homeLineClose.value <= 51.0
    ensures r.homeLineClose.Some? <==> CloseLine(g.tfl, g.vi, g.sbr, Negated(g.spreadLine)).Some?
  {
    var fastR := Negated(g.spreadLine);
    var open := OpenLine(g.tfl, g.vi, g.sbr, fastR);
    var close := CloseLine(g.tfl, g.vi, g.sbr, fastR);
    var band := if close.Some? then BandOf(rows, close.value) else None;
    var clamped := ClampClose(close);
    MarketRow(FixOpen(open, clamped), clamped, if g.location == "Neutral" then 1 else 0,
              MarketColumns(m, g.homeMl, g.awayMl, SpreadImpliedWp(g.homeSpreadOdds, band)))
  }

  /** `format_spreads` from the loaded game and spread-multiple tables:
      configured home teams only, each game formatted against the filled
      grid. */
  method FormatSpreads(m: Math, games: seq<Game>, teams: set<string>, table: seq<Multiple>)
    returns (grid: seq<real>, out: seq<MarketRow>)
    ensures |table| == 0 ==> grid == []
    ensures |table| > 0 ==> |grid| > 0 && grid[0] == MinSpread(table)
    ensures forall k :: 0 <= k < |grid| ==> grid[k] == grid[0] + 0.5 * k as real
    ensures var kept := KeepHomes(games, (g: Game) => g.homeTeam, teams);
            |out| == |kept| && forall k :: 0 <= k < |out| ==> out[k] == FormatGame(m, kept[k], FilledRows(grid, table))
  {
    var kept := KeepHomes(games, (g: Game) => g.homeTeam, teams);
    grid := TableGrid(table);
    var rows := FilledRows(grid, table);
    out := seq(|kept|, k requires 0 <= k < |kept| => FormatGame(m, kept[k], rows));
  }

  /** Every grid spread has a full band once the table has a row. */
  lemma GridSpreadsHaveBands(grid: seq<real>, table: seq<Multiple>, i: nat)
    requires i < |grid| && |table| > 0
    requires grid[0] == MinSpread(table)
    ensures BandOf(FilledRows(grid, table), grid[i]).Some?
  {
    var rows := GridRows(grid, table);
    GridRowsHaveSpread(grid, table, i);
    var j :| 0 <= j < |rows| && rows[j].spread == grid[i];
    FirstRowPresent(grid, table);
    var wps := seq(|rows|, k requires 0 <= k < |rows| => rows[k].winProb);
    FillLeavesNoGap(wps, 0);
    var filled := FilledRows(grid, table);
    assert filled[j].spread == grid[i] && filled[j].winProb.Some?;
    ValuesAtHasRow(filled, grid[i], j);
  }

  /** Every grid spread has at least one merged row. */
  lemma {:induction false} GridRowsHaveSpread(grid: seq<real>, table: seq<Multiple>, i: nat)
    requires i < |grid|
    ensures exists j :: 0 <= j < |GridRows(grid, table)| && GridRows(grid, table)[j].spread == grid[i]
  {
    var n := |grid| - 1;
    var rows := GridRows(grid, table);
    if i == n {
      var prefix := GridRows(grid[..n], table);
      assert rows[|prefix|].spread == grid[n];
    } else {
      GridRowsHaveSpread(grid[..n], table, i);
      var j :| 0 <= j < |GridRows(grid[..n], table)| && GridRows(grid[..n], table)[j].spread == grid[..n][i];
      assert rows[j] == GridRows(grid[..n], table)[j];
    }
  }

  /** The first merged row is the table's smallest spread, which the table
      has a win probability for. */
  lemma FirstRowPresent(grid: seq<real>, table: seq<Multiple>)
    requires |grid| > 0 && |table| > 0 && grid[0] == MinSpread(table)
    ensures |GridRows(grid, table)| > 0 && GridRows(grid, table)[0].winProb.Some?
  {
    var k :| 0 <= k < |table| && MinSpread(table) == table[k].spread;
    MatchesFoundNonEmpty(table, grid[0], k);
    GridRowsStart(grid, table);
  }

  lemma {:induction false} MatchesFoundNonEmpty(table: seq<Multiple>, s: real, k: nat)
    requires k < |table| && table[k].spread == s
    ensures |MatchesFound(table, s)| > 0 && forall j :: 0 <= j < |MatchesFound(table, s)| ==> MatchesFound(table, s)[j].Some?
  {
    var n := |table| - 1;
    if k < n {
      MatchesFoundNonEmpty(table[..n], s, k);
    }
    MatchesFoundPresent(table, s);
  }

  lemma {:induction false} MatchesFoundPresent(table: seq<Multiple>, s: real)
    ensures forall j :: 0 <= j < |MatchesFound(table, s)| ==> MatchesFound(table, s)[j].Some?
  {
    if |table| > 0 {
      MatchesFoundPresent(table[..|table| - 1], s);
    }
  }

  /** The merged rows start with the first grid spread's matches. */
  lemma {:induction false} GridRowsStart(grid: seq<real>, table: seq<Multiple>)
    requires |grid| > 0
    ensures |GridRows(grid, table)| >= |Matches(table, grid[0])|
    ensures forall k :: 0 <= k < |Matches(table, grid[0])| ==> GridRows(grid, table)[k].winProb == Matches(table, grid[0])[k]
  {
    var n := |grid| - 1;
    if n > 0 {
      GridRowsStart(grid[..n], table);
      assert grid[..n][0] == grid[0];
    }
  }

  lemma {:induction false} ValuesAtHasRow(rows: seq<GridRow>, s: real, j: nat)
    requires j < |rows| && rows[j].spread == s && rows[j].winProb.Some?
    ensures |ValuesAt(rows, s)| > 0
  {
    var n := |rows| - 1;
    if j < n {
      ValuesAtHasRow(rows[..n], s, j);
    }
  }
}
