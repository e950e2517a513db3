/** The original nfelo engine (models/calculate_nfelo.py): the rating shift
    of `shift_calc_helper`, the cover-probability helpers, the per-game update
    `generate_nfelo` over a dictionary of per-team, per-game entries, and the
    per-game grades of `score_models`. */
module LegacyNfelo {
  import opened Wrappers
  import opened Numerics
  import ES = EloShift
  import MR = MarketRegression
  import CP = CoverProbability
  import OR = OffseasonRegression
  import ST = SpreadTranslation
  import SC = Scoring
  import NR = NfeloRules

  // -------------------------------------------------------------------
  // shift_calc_helper

  /** The K used by the legacy shift.  The inflation is scaled by the gap
      between the two lines, where the current engine uses the gap between
      the two errors. */
  function LegacyK(k: real, modelError: real, marketError: real, lineGap: real, marketResistFactor: real): real {
    if modelError < 1.0 || marketResistFactor == 0.0 then k
    else if modelError <= marketError then k
    else k * (1.0 + lineGap / marketResistFactor)
  }

  /** `adj_k * log_b(max(pd, 1) + 1)` for directed lines. */
  function LegacyMagnitude(m: Math, margin: real, line: real, marketLine: real,
                           k: real, b: real, marketResistFactor: real): real
  {
    LegacyK(k, Abs(margin - line), Abs(marketLine - margin), Abs(marketLine - line), marketResistFactor)
      * ES.Mult(m, Abs(margin - line), b)
  }

  /** shift_calc_helper: the rating shift for one measured margin; home
      lines are negated first.  `math.log` raises for a base b <= 0 or 1. */
  function ShiftCalcHelper(m: Math, margin: real, lineMeasure: real, lineMarket: real,
                           k: real, b: real, marketResistFactor: real, isHome: bool): real
    requires b > 0.0 && b != 1.0
  {
    var line := ES.Directed(lineMeasure, isHome);
    var shift := LegacyMagnitude(m, margin, line, ES.Directed(lineMarket, isHome), k, b, marketResistFactor);
    if margin - line == 0.0 then 0.0
    else if margin - line > 0.0 then shift
    else -1.0 * shift
  }

  /** A positive K is never reduced. */
  lemma LegacyKAtLeastK(k: real, modelError: real, marketError: real, lineGap: real, marketResistFactor: real)
    requires k > 0.0 && lineGap >= 0.0 && marketResistFactor >= 0.0
    ensures LegacyK(k, modelError, marketError, lineGap, marketResistFactor) >= k
  {
    if !(modelError < 1.0 || marketResistFactor == 0.0) && modelError > marketError {
      var q := lineGap / marketResistFactor;
      assert q >= 0.0;
      MulKeepsLe(k, 1.0, 1.0 + q);
    }
  }

  /** For k > 0 and b > 1 the magnitude is positive. */
  lemma LegacyMagnitudePositive(m: Math, margin: real, line: real, marketLine: real,
                                k: real, b: real, marketResistFactor: real)
    requires b > 1.0 && k > 0.0 && marketResistFactor >= 0.0
    requires ES.LogPositiveAbove1(m, b)
    ensures LegacyMagnitude(m, margin, line, marketLine, k, b, marketResistFactor) > 0.0
  {
    var modelError := Abs(margin - line);
    LegacyKAtLeastK(k, modelError, Abs(marketLine - margin), Abs(marketLine - line), marketResistFactor);
    var adj := LegacyK(k, modelError, Abs(marketLine - margin), Abs(marketLine - line), marketResistFactor);
    var mult := ES.Mult(m, modelError, b);
    assert Max(modelError, 1.0) + 1.0 > 1.0;
    assert mult > 0.0;
    MulSign(adj, mult);
    assert adj * mult > 0.0;
  }

  /** For k > 0 and b > 1 the shift is zero exactly when the margin equals
      the directed line, positive exactly when the margin beats it and
      negative exactly when it falls short. */
  lemma ShiftCalcHelperSign(m: Math, margin: real, lineMeasure: real, lineMarket: real,
                            k: real, b: real, marketResistFactor: real, isHome: bool)
    requires b > 1.0 && k > 0.0 && marketResistFactor >= 0.0
    requires ES.LogPositiveAbove1(m, b)
    ensures var s := ShiftCalcHelper(m, margin, lineMeasure, lineMarket, k, b, marketResistFactor, isHome);
            var line := ES.Directed(lineMeasure, isHome);
            (s == 0.0 <==> margin == line) && (s > 0.0 <==> margin > line) && (s < 0.0 <==> margin < line)
  {
    LegacyMagnitudePositive(m, margin, ES.Directed(lineMeasure, isHome), ES.Directed(lineMarket, isHome),
                            k, b, marketResistFactor);
  }

  lemma Triangle(a: real, b: real, c: real)
    ensures Abs(a - c) <= Abs(a - b) + Abs(b - c)
  {
  }

  lemma DivKeepsLe(x: real, y: real, f: real)
    requires f > 0.0 && x <= y
    ensures x / f <= y / f
  {
    assert y / f - x / f == (y - x) / f;
  }

  /** The legacy K is never below the current engine's: the gap between the
      two lines is at least the gap between the two errors. */
  lemma LegacyKAtLeastAdjK(k: real, margin: real, line: real, marketLine: real, marketResistFactor: real)
    requires k >= 0.0 && marketResistFactor >= 0.0
    ensures LegacyK(k, Abs(margin - line), Abs(marketLine - margin), Abs(marketLine - line), marketResistFactor)
         >= ES.AdjK(k, Abs(margin - line), Abs(margin - marketLine), marketResistFactor)
  {
    var modelError := Abs(margin - line);
    var marketError := Abs(margin - marketLine);
    assert Abs(marketLine - margin) == marketError;
    if !(modelError < 1.0 || marketResistFactor == 0.0) && modelError > marketError {
      var gap := Abs(marketLine - line);
      var errGap := Abs(modelError - marketError);
      Triangle(margin, marketLine, line);
      assert errGap <= gap;
      var q1 := errGap / marketResistFactor;
      var q2 := gap / marketResistFactor;
      DivKeepsLe(errGap, gap, marketResistFactor);
      MulKeepsLe(k, 1.0 + q1, 1.0 + q2);
    }
  }

  /** Whenever K is not inflated the legacy shift is exactly the current
      engine's calc_shift. */
  lemma ShiftCalcHelperIsCalcShiftUninflated(m: Math, margin: real, lineMeasure: real, lineMarket: real,
                                            k: real, b: real, marketResistFactor: real, isHome: bool)
    requires b > 0.0 && b != 1.0
    requires var line := ES.Directed(lineMeasure, isHome);
             var marketLine := ES.Directed(lineMarket, isHome);
             Abs(margin - line) < 1.0 || marketResistFactor == 0.0 || Abs(margin - line) <= Abs(margin - marketLine)
    ensures ShiftCalcHelper(m, margin, lineMeasure, lineMarket, k, b, marketResistFactor, isHome)
         == ES.CalcShift(m, margin, lineMeasure, lineMarket, k, b, marketResistFactor, isHome)
  {
    MagnitudeUninflated(m, margin, ES.Directed(lineMeasure, isHome), ES.Directed(lineMarket, isHome),
                        k, b, marketResistFactor);
  }

  /** Uninflated, both magnitudes are k times the same multiplier. */
  lemma MagnitudeUninflated(m: Math, margin: real, line: real, marketLine: real,
                            k: real, b: real, marketResistFactor: real)
    requires Abs(margin - line) < 1.0 || marketResistFactor == 0.0 || Abs(margin - line) <= Abs(margin - marketLine)
    ensures LegacyMagnitude(m, margin, line, marketLine, k, b, marketResistFactor)
         == ES.Magnitude(m, margin, line, marketLine, k, b, marketResistFactor)
  {
    assert Abs(marketLine - margin) == Abs(margin - marketLine);
    ES.AdjKCases(k, Abs(margin - line), Abs(margin - marketLine), marketResistFactor);
    MulSign(k, ES.Mult(m, Abs(margin - line), b));
  }

  // -------------------------------------------------------------------
  // calc_probs_favorite / calc_probs_dog

  /** The rows of one projected-spread bucket, in table order. */
  function Bucket(dist: seq<CP.DistRow>, spread: int): (r: seq<CP.DistRow>)
    ensures |r| <= |dist|
    ensures forall i :: 0 <= i < |r| ==> r[i].spreadLine == spread
  {
    if |dist| == 0 then []
    else (if dist[0].spreadLine == spread then [dist[0]] else []) + Bucket(dist[1..], spread)
  }

  /** `numpy.where(cond, prob, 0).sum()` over the bucket's rows. */
  function WhereSum(rows: seq<CP.DistRow>, market: int, side: CP.Side): real {
    if |rows| == 0 then 0.0
    else (if CP.SideOf(rows[0].result, market) == side then rows[0].prob else 0.0) + WhereSum(rows[1..], market, side)
  }

  /** calc_probs_favorite and calc_probs_dog, whose bodies are the same
      text: both spreads rounded to a tenth and negated, the projected bucket
      selected, then loss, push and cover summed by result below, at and
      above the negated market line.  One member models both names, so the
      favourite/underdog branch in generate_nfelo never changes a result. */
  function CalcProbs(dist: seq<CP.DistRow>, projSpread: real, marketSpread: real): CP.CoverProbs {
    var rows := Bucket(dist, CP.FlippedTenths(projSpread));
    var market := CP.FlippedTenths(marketSpread);
    CP.CoverProbs(WhereSum(rows, market, CP.Below), WhereSum(rows, market, CP.At), WhereSum(rows, market, CP.Above))
  }

  lemma {:induction false} WhereSumOfBucket(dist: seq<CP.DistRow>, spread: int, market: int, side: CP.Side)
    ensures WhereSum(Bucket(dist, spread), market, side) == CP.MassOn(dist, spread, market, side)
  {
    if |dist| > 0 {
      WhereSumOfBucket(dist[1..], spread, market, side);
      var head := if dist[0].spreadLine == spread then [dist[0]] else [];
      var tail := Bucket(dist[1..], spread);
      assert Bucket(dist, spread) == head + tail;
      if dist[0].spreadLine == spread {
        assert (head + tail)[1..] == tail;
      } else {
        assert head + tail == tail;
      }
    }
  }

  /** The legacy helpers compute exactly calc_cover_probs of
      nfelo/Utilities/cover_probability.py. */
  lemma CalcProbsIsCalcCoverProbs(dist: seq<CP.DistRow>, projSpread: real, marketSpread: real)
    ensures CalcProbs(dist, projSpread, marketSpread) == CP.CalcCoverProbs(dist, projSpread, marketSpread)
  {
    var proj := CP.FlippedTenths(projSpread);
    var market := CP.FlippedTenths(marketSpread);
    WhereSumOfBucket(dist, proj, market, CP.Below);
    WhereSumOfBucket(dist, proj, market, CP.At);
    WhereSumOfBucket(dist, proj, market, CP.Above);
  }

  /** Home probabilities, the away mirror and both EVs. */
  datatype SideProbs = SideProbs(home: CP.CoverProbs, homeEv: real, away: CP.CoverProbs, awayEv: real)

  /** The away side's loss is home's cover and its cover home's loss; each
      EV is (cover - 1.1 * loss) / 1.1. */
  function Sides(p: CP.CoverProbs): (r: SideProbs)
    ensures r.away.loss == r.home.cover && r.away.cover == r.home.loss && r.away.push == r.home.push
    ensures r.home == p
  {
    SideProbs(p, NR.Ev(p.cover, p.loss), CP.CoverProbs(p.cover, p.push, p.loss), NR.Ev(p.loss, p.cover))
  }

  /** With nonnegative probabilities at most one side has a positive EV, so
      the break-even grade's home-first test never hides an away play. */
  lemma AtMostOneSidePositive(p: CP.CoverProbs)
    requires p.loss >= 0.0 && p.cover >= 0.0
    ensures !(Sides(p).homeEv > 0.0 && Sides(p).awayEv > 0.0)
  {
    var s := Sides(p);
    if s.homeEv > 0.0 {
      assert p.cover - 1.1 * p.loss > 0.0;
      assert p.loss - 1.1 * p.cover < 0.0;
    }
  }

  // -------------------------------------------------------------------
  // the engine's inputs

  /** The nfelo_config values generate_nfelo reads; `regression` holds
      market_regression, min_mr, spread_delta_base, rmse_base,
      long_line_inflator and hook_certainty. */
  datatype LegacyConfig = LegacyConfig(
    k: real, b: real, marketResistFactor: real, z: real,
    dvoaWeight: real, reversion: real, qbWeight: real, playoffBoost: real,
    regression: MR.Config,
    marginWeight: real, wepaWeight: real, pffWeight: real,
    nfeloSpan: real, seSpan: real)

  /** Values for which the projection divides by no zero and the log base
      is usable.  A span of -1 is allowed: generate_nfelo raises
      ZeroDivisionError for it (see Commit). */
  predicate ValidConfig(c: LegacyConfig) {
    c.b > 0.0 && c.b != 1.0 && c.z != 0.0 && MR.ValidConfig(c.regression)
  }

  /** The read-only tables: spread multipliers keyed by a probability in
      thousandths, the spread-to-probability translation keyed by the line,
      the margin distribution and the 2009 starting ratings. */
  datatype Tables = Tables(
    spreadMult: map<int, real>, spreadTranslation: map<real, real>,
    dist: seq<CP.DistRow>, beginingElo: map<string, real>)

  /** The columns of one game row that generate_nfelo reads.  A missing
      previous game id is `None`. */
  datatype LegacyRow = LegacyRow(
    gameId: string, season: int, week: int, homeTeam: string, awayTeam: string,
    gameNumberHome: int, gameNumberAway: int,
    prevGameIdHome: Option<string>, prevGameIdAway: Option<string>,
    homeProjectedDvoa: real, awayProjectedDvoa: real,
    hfaMod: real, homeByeMod: real, awayByeMod: real,
    homeQbAdj: real, awayQbAdj: real, isPlayoffs: int,
    homeLineClose: real, homeLineOpen: real, homeMargin: real,
    homeWepaMargin: real, awayWepaMargin: real, homePffMargin: real, awayPffMargin: real,
    home538Prob: real, qbeloProb: real)

  /** One `elo_dict[team][game_id]` entry; create_data_struc fills every
      entry with `Blank`. */
  datatype Entry = Entry(
    starting: Option<real>, ending: Option<real>, week: Option<int>,
    adjStart: real, adjEnd: real, modelSeStart: real, modelSeEnd: real,
    marketSeStart: real, marketSeEnd: real)

  const Blank: Entry := Entry(None, None, None, 0.0, 0.0, 0.0, 0.0, 0.0, 0.0)

  /** `elo_dict`, keyed by (team, game id): every access the code makes
      subscripts both levels, so a missing team and a missing game raise
      alike. */
  type EloDict = map<(string, string), Entry>

  predicate HasEntry(d: EloDict, team: string, gameId: string) {
    (team, gameId) in d
  }

  // -------------------------------------------------------------------
  // create_data_struc

  /** One row's entries: both teams get a dictionary if they have none, then
      a blank entry under the game id, home first. */
  function AddGame(d: EloDict, row: LegacyRow): (r: EloDict)
    ensures r.Keys == d.Keys + {(row.homeTeam, row.gameId), (row.awayTeam, row.gameId)}
    ensures r[(row.homeTeam, row.gameId)] == Blank && r[(row.awayTeam, row.gameId)] == Blank
    ensures forall k :: k in d && k != (row.homeTeam, row.gameId) && k != (row.awayTeam, row.gameId) ==> r[k] == d[k]
  {
    d[(row.homeTeam, row.gameId) := Blank][(row.awayTeam, row.gameId) := Blank]
  }

  function DataStruc(rows: seq<LegacyRow>): EloDict {
    if |rows| == 0 then map[] else AddGame(DataStruc(rows[..|rows| - 1]), rows[|rows| - 1])
  }

  ghost predicate AllBlank(d: EloDict) {
    forall k :: k in d ==> d[k] == Blank
  }

  /** Every row's two entries exist and are blank. */
  predicate CoversRows(d: EloDict, rows: seq<LegacyRow>) {
    forall i :: 0 <= i < |rows| ==>
      HasEntry(d, rows[i].homeTeam, rows[i].gameId) && HasEntry(d, rows[i].awayTeam, rows[i].gameId)
  }

  /** create_data_struc leaves a blank entry for both teams of every row,
      and nothing else. */
  lemma {:induction false} DataStrucCovers(rows: seq<LegacyRow>)
    ensures AllBlank(DataStruc(rows))
    ensures CoversRows(DataStruc(rows), rows)
  {
    if |rows| > 0 {
      var init := rows[..|rows| - 1];
      DataStrucCovers(init);
      var d := DataStruc(init);
      var r := AddGame(d, rows[|rows| - 1]);
      forall i | 0 <= i < |rows|
        ensures HasEntry(r, rows[i].homeTeam, rows[i].gameId) && HasEntry(r, rows[i].awayTeam, rows[i].gameId)
      {
        if i < |rows| - 1 {
          assert rows[i] == init[i];
        }
      }
    }
  }

  /** create_data_struc: a loop over the rows in order. */
  method CreateDataStruc(rows: seq<LegacyRow>) returns (d: EloDict)
    ensures d == DataStruc(rows)
    ensures AllBlank(d) && CoversRows(d, rows)
  {
    d := map[];
    var i := 0;
    while i < |rows|
      invariant 0 <= i <= |rows|
      invariant d == DataStruc(rows[..i])
    {
      assert rows[..i + 1][..i] == rows[..i];
      d := AddGame(d, rows[i]);
      i := i + 1;
    }
    assert rows[..|rows|] == rows;
    DataStrucCovers(rows);
  }

  // -------------------------------------------------------------------
  // generate_nfelo: lines of the external models

  /** `-16 * log10(p / max(1 - p, .001))`, the unrounded line of a win
      probability. */
  function UnroundedLine(m: Math, p: real): real {
    -16.0 * m.log10(p / Max(1.0 - p, 0.001))
  }

  /** Away from the 0.001 floor, the underdog's line is the favourite's
      negated, given that log10 negates on the reciprocal odds. */
  lemma UnroundedLineAntisymmetric(m: Math, p: real)
    requires 0.001 <= p <= 0.999
    requires m.log10((1.0 - p) / p) == -m.log10(p / (1.0 - p))
    ensures UnroundedLine(m, 1.0 - p) == -UnroundedLine(m, p)
  {
    assert Max(1.0 - p, 0.001) == 1.0 - p;
    assert Max(1.0 - (1.0 - p), 0.001) == p;
  }

  /** `spread_mult_dict[round(p, 3)]`, a KeyError when absent. */
  function MultLine(t: Tables, p: real): (r: Result<real, Error>)
    ensures r.Ok? <==> RoundKey(p, 1000) in t.spreadMult
    ensures r.Ok? ==> r.value == t.spreadMult[RoundKey(p, 1000)]
  {
    var key := RoundKey(p, 1000);
    if key in t.spreadMult then Ok(t.spreadMult[key]) else Err(KeyMissing("spread multiplier"))
  }

  /** `round(2 * x) / 2`: the nearest half point. */
  function HalfPoint(x: real): (r: real)
    ensures r - 0.25 <= x <= r + 0.25
  {
    RoundHalfEven(2.0 * x) as real / 2.0
  }

  datatype ExternalLines = ExternalLines(rounded538: real, roundedQbelo: real, line538: real, lineQbelo: real)

  /** The 538 and qbelo lines: rounded half-point lines from the multiplier
      table, unrounded ones from the fixed -16 multiplier. */
  function External(m: Math, t: Tables, row: LegacyRow): (r: Result<ExternalLines, Error>)
    ensures r.Ok? <==> RoundKey(row.home538Prob, 1000) in t.spreadMult && RoundKey(row.qbeloProb, 1000) in t.spreadMult
    ensures r.Ok? ==>
      r.value.rounded538 == HalfPoint(t.spreadMult[RoundKey(row.home538Prob, 1000)])
      && r.value.roundedQbelo == HalfPoint(t.spreadMult[RoundKey(row.qbeloProb, 1000)])
      && r.value.line538 == UnroundedLine(m, row.home538Prob)
      && r.value.lineQbelo == UnroundedLine(m, row.qbeloProb)
  {
    var a := MultLine(t, row.home538Prob);
    var b := MultLine(t, row.qbeloProb);
    if a.Err? then Err(a.error)
    else if b.Err? then Err(b.error)
    else Ok(ExternalLines(HalfPoint(a.value), HalfPoint(b.value),
                          UnroundedLine(m, row.home538Prob), UnroundedLine(m, row.qbeloProb)))
  }

  // -------------------------------------------------------------------
  // generate_nfelo: starting ratings

  /** The previous game's entry, if the previous game id names one. */
  function PrevEntry(d: EloDict, team: string, prevId: Option<string>): (r: Option<Entry>)
    ensures r.Some? <==> prevId.Some? && HasEntry(d, team, prevId.value)
  {
    if prevId.Some? && HasEntry(d, team, prevId.value) then Some(d[(team, prevId.value)]) else None
  }

  /** `elo_dict[team][prev_game_id]['ending']`: a KeyError when there is no
      such entry, and a TypeError later when the entry has no ending yet. */
  function PrevEnding(d: EloDict, team: string, prevId: Option<string>): (r: Result<real, Error>)
    ensures r.Ok? <==> PrevEntry(d, team, prevId).Some? && PrevEntry(d, team, prevId).value.ending.Some?
    ensures r.Ok? ==> r.value == PrevEntry(d, team, prevId).value.ending.value
  {
    var e := PrevEntry(d, team, prevId);
    if e.None? then Err(KeyMissing(team))
    else if e.value.ending.None? then Err(NoneOperand)
    else Ok(e.value.ending.value)
  }

  /** The season-opening rating after 2009: the mean-reverted previous
      ending blended with the DVOA prior `1505 + 484 * dvoa`. */
  function Reverted(c: LegacyConfig, median: real, previous: real, projDvoa: real): real {
    (1.0 - c.dvoaWeight) * OR.MeanReverted(median, previous, c.reversion)
      + c.dvoaWeight * (OR.MeanElo + 484.0 * projDvoa)
  }

  /** The legacy reversion is offseason_regression with a DVOA projection,
      no win-total projection and a zero win-total weight. */
  lemma RevertedIsOffseasonRegression(c: LegacyConfig, median: real, previous: real, projDvoa: real)
    requires c.dvoaWeight <= 1.0
    ensures Reverted(c, median, previous, projDvoa)
         == OR.Regress(median, previous, Some(projDvoa), None, c.reversion, c.dvoaWeight, 0.0)
  {
    var rev := OR.MeanReverted(median, previous, c.reversion);
    var w := OR.NormalizeWeights(c.dvoaWeight, 0.0);
    assert w.dvoa == c.dvoaWeight && w.wt == 0.0;
    assert w.reverted == 1.0 - c.dvoaWeight;
    assert OR.PriorElo(None, 24.8, rev) == rev;
    assert OR.PriorElo(Some(projDvoa), 484.0, rev) == OR.MeanElo + 484.0 * projDvoa;
  }

  /** A team that ended last season at the league median, with a zero DVOA
      projection, starts at 1505. */
  lemma MedianTeamStartsAtMean(c: LegacyConfig, median: real)
    ensures Reverted(c, median, median, 0.0) == OR.MeanElo
  {
    var x := OR.MeanReverted(median, median, c.reversion);
    assert x == OR.MeanElo;
    var w := c.dvoaWeight;
    calc {
      Reverted(c, median, median, 0.0);
      (1.0 - w) * x + w * (OR.MeanElo + 484.0 * 0.0);
      { assert x == OR.MeanElo; }
      (1.0 - w) * OR.MeanElo + w * OR.MeanElo;
    }
  }

  const FirstSeason: int := 2009

  /** The starting rating of one side: the previous game's ending, except in
      a team's first game of a season, which takes `begining_elo` in 2009
      and the blended reversion, around the median of last season's final
      ratings, afterwards. */
  function Starting(c: LegacyConfig, t: Tables, d: EloDict, yearly: map<int, seq<real>>,
                    team: string, gameNumber: int, season: int, prevId: Option<string>, projDvoa: real)
    : (r: Result<real, Error>)
    ensures gameNumber != 1 ==> r == PrevEnding(d, team, prevId)
    ensures gameNumber == 1 && season == FirstSeason ==>
      (r.Ok? <==> team in t.beginingElo) && (r.Ok? ==> r.value == t.beginingElo[team])
    ensures gameNumber == 1 && season != FirstSeason ==>
      (r.Ok? <==> season - 1 in yearly && |yearly[season - 1]| > 0 && PrevEnding(d, team, prevId).Ok?)
    ensures gameNumber == 1 && season != FirstSeason && r.Ok? ==>
      r.value == Reverted(c, Median(yearly[season - 1]).value, PrevEnding(d, team, prevId).value, projDvoa)
  {
    if gameNumber == 1 then
      if season == FirstSeason then
        if team in t.beginingElo then Ok(t.beginingElo[team]) else Err(KeyMissing(team))
      else if season - 1 !in yearly then Err(KeyMissing("yearly_elos"))
      else
        var med := Median(yearly[season - 1]);
        if med.None? then Err(BadValue("no median for empty data"))
        else
          var prev := PrevEnding(d, team, prevId);
          if prev.Err? then Err(prev.error) else Ok(Reverted(c, med.value, prev.value, projDvoa))
    else PrevEnding(d, team, prevId)
  }

  // -------------------------------------------------------------------
  // generate_nfelo: projection

  /** The difference before market adjustment: ratings, home-field and bye
      modifiers (the away bye subtracted) and the QB term, boosted in the
      playoffs. */
  function PreMarketDif(c: LegacyConfig, row: LegacyRow, startHome: real, startAway: real): (r: real)
    ensures row.isPlayoffs != 1 ==>
      r == startHome - startAway + row.hfaMod + row.homeByeMod - row.awayByeMod
           + c.qbWeight * (row.homeQbAdj - row.awayQbAdj)
  {
    var d := startHome - startAway + row.hfaMod + row.homeByeMod - row.awayByeMod
             + c.qbWeight * (row.homeQbAdj - row.awayQbAdj);
    if row.isPlayoffs == 1 then d * (1.0 + c.playoffBoost) else d
  }

  /** `1 / (10 ** (-d / z) + 1)` with the configured z. */
  function WinProb(m: Math, dif: real, z: real): (r: real)
    requires z != 0.0
    ensures 0.0 < r < 1.0
    ensures z > 0.0 ==> ST.EloToProb(m, dif, z) == Ok(r)
  {
    var a := m.pow10(-dif / z);
    assert a + 1.0 > 1.0;
    1.0 / (a + 1.0)
  }

  /** The rolling values carried into the game. */
  datatype Rolling = Rolling(adjHome: real, adjAway: real, se: MR.SeContext)

  /** Both lookups sit in one try block: unless both teams have a previous
      entry, every carried value is 0. */
  function StartRolling(d: EloDict, row: LegacyRow): (r: Rolling)
    ensures (PrevEntry(d, row.homeTeam, row.prevGameIdHome).None? || PrevEntry(d, row.awayTeam, row.prevGameIdAway).None?)
            ==> r == Rolling(0.0, 0.0, MR.SeContext(0.0, 0.0, 0.0, 0.0))
    ensures PrevEntry(d, row.homeTeam, row.prevGameIdHome).Some? && PrevEntry(d, row.awayTeam, row.prevGameIdAway).Some?
            ==> var h := d[(row.homeTeam, row.prevGameIdHome.value)];
                var a := d[(row.awayTeam, row.prevGameIdAway.value)];
                r == Rolling(h.adjEnd, a.adjEnd, MR.SeContext(h.modelSeEnd, h.marketSeEnd, a.modelSeEnd, a.marketSeEnd))
  {
    var h := PrevEntry(d, row.homeTeam, row.prevGameIdHome);
    var a := PrevEntry(d, row.awayTeam, row.prevGameIdAway);
    if h.Some? && a.Some? then
      Rolling(h.value.adjEnd, a.value.adjEnd,
              MR.SeContext(h.value.modelSeEnd, h.value.marketSeEnd, a.value.modelSeEnd, a.value.marketSeEnd))
    else Rolling(0.0, 0.0, MR.SeContext(0.0, 0.0, 0.0, 0.0))
  }

  /** The legacy regression product: the deflator and long-line term are
      measured against the open line, the hook against the close, and the
      RMSE term, `1 + rmse_dif / rmse_base`, applies only when the model is
      more than a point off the open (otherwise the factor is 1). */
  function LegacyProduct(m: Math, c: MR.Config, preRegLine: real, lineOpen: real, lineClose: real,
                         se: MR.SeContext): real
    requires MR.ValidConfig(c)
  {
    MR.InitialMrFactor(preRegLine, lineOpen, c.spreadDeltaBase)
      * MR.LongAdj(preRegLine, lineOpen, c.llInflator)
      * MR.HookAdj(preRegLine, lineClose, c.hookCertainty)
      * MR.RmseAdj(m, preRegLine, lineOpen, c.rmseBase, se.modelSeHome, se.marketSeHome, se.modelSeAway, se.marketSeAway)
  }

  /** With equal open and close lines the legacy product is the current
      product with the model line in the RMSE term, which is the form the
      current code's parameter names call for, not the form it calls. */
  lemma LegacyProductIsIntendedProduct(m: Math, c: MR.Config, preRegLine: real, line: real, se: MR.SeContext)
    requires MR.ValidConfig(c)
    ensures LegacyProduct(m, c, preRegLine, line, line, se) == MR.Product(m, c, preRegLine, preRegLine, line, se)
  {
    Reorder(MR.InitialMrFactor(preRegLine, line, c.spreadDeltaBase),
            MR.RmseAdj(m, preRegLine, line, c.rmseBase, se.modelSeHome, se.marketSeHome, se.modelSeAway, se.marketSeAway),
            MR.LongAdj(preRegLine, line, c.llInflator),
            MR.HookAdj(preRegLine, line, c.hookCertainty));
  }

  lemma Reorder(a: real, b: real, c: real, d: real)
    ensures a * b * c * d == a * c * d * b
  {
    assert a * b * c * d == (a * c * d) * b;
  }

  /** The factor shared by the open and close regressions, clamped into
      [min_mr, 1] whenever min_mr <= 1. */
  function LegacyFactor(m: Math, c: MR.Config, preRegLine: real, lineOpen: real, lineClose: real,
                        se: MR.SeContext): (r: real)
    requires MR.ValidConfig(c)
    ensures c.minRegression <= 1.0 ==> c.minRegression <= r <= 1.0
  {
    MR.ClampFactor(c, LegacyProduct(m, c, preRegLine, lineOpen, lineClose, se))
  }

  /** `-z * math.log10(1 / p - 1)`: `1 / p` raises ZeroDivisionError at
      p == 0, and `math.log10` raises ValueError ("math domain error") on
      an argument that is not positive, that is for p >= 1 and p < 0. */
  function MarketEloDif(m: Math, z: real, p: real): (r: Result<real, Error>)
    ensures r.Err? <==> !(0.0 < p < 1.0)
    ensures p == 0.0 ==> r == Err(ZeroDivision)
    ensures p != 0.0 && r.Err? ==> r == Err(MathDomain)
  {
    if p == 0.0 then Err(ZeroDivision)
    else
      InverseOddsPositive(p);
      if 1.0 / p - 1.0 <= 0.0 then Err(MathDomain) else Ok(-z * m.log10(1.0 / p - 1.0))
  }

  /** The ValueError `math.log10` raises outside its domain. */
  const MathDomain := BadValue("math domain error")

  /** `1 / p - 1` is positive exactly for p strictly between 0 and 1. */
  lemma InverseOddsPositive(p: real)
    requires p != 0.0
    ensures 1.0 / p - 1.0 > 0.0 <==> 0.0 < p < 1.0
  {
    if p < 0.0 {
      assert 1.0 / p < 0.0;
    } else if p < 1.0 {
      assert 1.0 / p * p == 1.0;
    } else {
      assert 1.0 / p * p == 1.0;
      assert 1.0 / p <= 1.0;
    }
  }

  /** With a positive z and a probability strictly between 0 and 1 the
      legacy inversion is prob_to_elo; at a probability of 1 or more, or
      below 0, the legacy form raises where prob_to_elo returns a value. */
  lemma MarketEloDifIsProbToElo(m: Math, z: real, p: real)
    requires z > 0.0
    ensures 0.0 < p < 1.0 ==> MarketEloDif(m, z, p) == ST.ProbToElo(m, p, z)
    ensures !(0.0 < p < 1.0) && p != 0.0 ==> MarketEloDif(m, z, p).Err? && ST.ProbToElo(m, p, z).Ok?
  {
  }

  datatype Projection = Projection(
    external: ExternalLines, startingHome: real, startingAway: real,
    difPreMarket: real, probPreMarket: real, linePreMarket: real,
    rolling: Rolling, marketProbClose: real, marketProbOpen: real,
    factor: real, difClose: real, difOpen: real,
    probClose: real, probOpen: real,
    lineClose: real, lineCloseRounded: real, lineOpen: real, lineOpenRounded: real,
    close: SideProbs, open: SideProbs, unregressed: SideProbs)

  /** The starting ratings of both sides, home first. */
  function Starts(c: LegacyConfig, t: Tables, d: EloDict, yearly: map<int, seq<real>>, row: LegacyRow)
    : (r: Result<(real, real), Error>)
    ensures r.Ok? <==>
      Starting(c, t, d, yearly, row.homeTeam, row.gameNumberHome, row.season, row.prevGameIdHome, row.homeProjectedDvoa).Ok?
      && Starting(c, t, d, yearly, row.awayTeam, row.gameNumberAway, row.season, row.prevGameIdAway, row.awayProjectedDvoa).Ok?
    ensures r.Ok? ==>
      r.value.0 == Starting(c, t, d, yearly, row.homeTeam, row.gameNumberHome, row.season, row.prevGameIdHome, row.homeProjectedDvoa).value
      && r.value.1 == Starting(c, t, d, yearly, row.awayTeam, row.gameNumberAway, row.season, row.prevGameIdAway, row.awayProjectedDvoa).value
  {
    var h := Starting(c, t, d, yearly, row.homeTeam, row.gameNumberHome, row.season, row.prevGameIdHome, row.homeProjectedDvoa);
    var a := Starting(c, t, d, yearly, row.awayTeam, row.gameNumberAway, row.season, row.prevGameIdAway, row.awayProjectedDvoa);
    if h.Err? then Err(h.error) else if a.Err? then Err(a.error) else Ok((h.value, a.value))
  }

  /** Market probabilities of both lines from the translation table. */
  function MarketProbs(t: Tables, row: LegacyRow): (r: Result<(real, real), Error>)
    ensures r.Ok? <==> row.homeLineClose in t.spreadTranslation && row.homeLineOpen in t.spreadTranslation
    ensures r.Ok? ==> r.value == (t.spreadTranslation[row.homeLineClose], t.spreadTranslation[row.homeLineOpen])
  {
    if row.homeLineClose !in t.spreadTranslation then Err(KeyMissing("home_line_close"))
    else if row.homeLineOpen !in t.spreadTranslation then Err(KeyMissing("home_line_open"))
    else Ok((t.spreadTranslation[row.homeLineClose], t.spreadTranslation[row.homeLineOpen]))
  }

  /** The regression toward both market lines and what follows from it. */
  function Regressed(m: Math, c: LegacyConfig, t: Tables, row: LegacyRow, ext: ExternalLines,
                     startHome: real, startAway: real, dif: real, probPre: real, linePre: real,
                     rolling: Rolling, marketClose: real, marketOpen: real)
    : (r: Result<Projection, Error>)
    requires ValidConfig(c)
    ensures r.Ok? ==>
      r.value.external == ext && r.value.startingHome == startHome && r.value.startingAway == startAway
      && r.value.difPreMarket == dif && r.value.probPreMarket == probPre && r.value.linePreMarket == linePre
      && r.value.rolling == rolling
    ensures r.Ok? ==> r.value.factor == LegacyFactor(m, c.regression, linePre, row.homeLineOpen, row.homeLineClose, rolling.se)
    ensures r.Ok? ==> MarketEloDif(m, c.z, marketClose).Ok? && MarketEloDif(m, c.z, marketOpen).Ok?
    ensures r.Ok? ==> r.value.difClose == MR.Blend(dif, MarketEloDif(m, c.z, marketClose).value, r.value.factor)
    ensures r.Ok? ==> r.value.difOpen == MR.Blend(dif, MarketEloDif(m, c.z, marketOpen).value, r.value.factor)
    ensures r.Ok? ==>
      r.value.close.home == CalcProbs(t.dist, r.value.lineCloseRounded, row.homeLineClose)
      && r.value.open.home == CalcProbs(t.dist, r.value.lineOpenRounded, row.homeLineOpen)
      && r.value.unregressed.home == CalcProbs(t.dist, linePre, row.homeLineClose)
  {
    var f := LegacyFactor(m, c.regression, linePre, row.homeLineOpen, row.homeLineClose, rolling.se);
    var mc := MarketEloDif(m, c.z, marketClose);
    var mo := MarketEloDif(m, c.z, marketOpen);
    if mc.Err? then Err(mc.error)
    else if mo.Err? then Err(mo.error)
    else
      var difOpen := MR.Blend(dif, mo.value, f);
      var difClose := MR.Blend(dif, mc.value, f);
      var pClose := WinProb(m, difClose, c.z);
      var pOpen := WinProb(m, difOpen, c.z);
      var rc := MultLine(t, pClose);
      var ro := MultLine(t, pOpen);
      if rc.Err? then Err(rc.error)
      else if ro.Err? then Err(ro.error)
      else
        Ok(Projection(ext, startHome, startAway, dif, probPre, linePre, rolling, marketClose, marketOpen,
                      f, difClose, difOpen, pClose, pOpen,
                      UnroundedLine(m, pClose), rc.value, UnroundedLine(m, pOpen), ro.value,
                      Sides(CalcProbs(t.dist, rc.value, row.homeLineClose)),
                      Sides(CalcProbs(t.dist, ro.value, row.homeLineOpen)),
                      Sides(CalcProbs(t.dist, linePre, row.homeLineClose))))
  }

  /** The projection half of generate_nfelo, stopping at the first
      exception in source order. */
  function Project(m: Math, c: LegacyConfig, t: Tables, d: EloDict, yearly: map<int, seq<real>>, row: LegacyRow)
    : (r: Result<Projection, Error>)
    requires ValidConfig(c)
    ensures r.Ok? ==> Starts(c, t, d, yearly, row) == Ok((r.value.startingHome, r.value.startingAway))
    ensures r.Ok? ==>
      r.value.difPreMarket == PreMarketDif(c, row, r.value.startingHome, r.value.startingAway)
      && r.value.probPreMarket == WinProb(m, r.value.difPreMarket, c.z)
      && MultLine(t, r.value.probPreMarket) == Ok(r.value.linePreMarket)
      && r.value.rolling == StartRolling(d, row)
  {
    var ext := External(m, t, row);
    if ext.Err? then Err(ext.error)
    else
      var starts := Starts(c, t, d, yearly, row);
      if starts.Err? then Err(starts.error)
      else
        var (sh, sa) := starts.value;
        var dif := PreMarketDif(c, row, sh, sa);
        var p := WinProb(m, dif, c.z);
        var line := MultLine(t, p);
        if line.Err? then Err(line.error)
        else
          var market := MarketProbs(t, row);
          if market.Err? then Err(market.error)
          else Regressed(m, c, t, row, ext.value, sh, sa, dif, p, line.value, StartRolling(d, row),
                         market.value.0, market.value.1)
  }

  // -------------------------------------------------------------------
  // generate_nfelo: shifts and rolling values

  /** One measured margin and the side it is measured for. */
  datatype Measure = Measure(margin: real, isHome: bool)

  /** The six measures in the order generate_nfelo computes them: the
      actual margin, then WEPA, then PFF, home before away. */
  function Measures(row: LegacyRow): (r: seq<Measure>)
    ensures |r| == 6
  {
    [Measure(row.homeMargin, true), Measure(-1.0 * row.homeMargin, false),
     Measure(row.homeWepaMargin, true), Measure(row.awayWepaMargin, false),
     Measure(row.homePffMargin, true), Measure(row.awayPffMargin, false)]
  }

  /** shift_calc_helper over a list of measures, each against the same
      pre-regression line and close. */
  function Shifts(m: Math, c: LegacyConfig, ms: seq<Measure>, line: real, close: real): (r: seq<real>)
    requires ValidConfig(c)
    ensures |r| == |ms|
  {
    if |ms| == 0 then []
    else [ShiftCalcHelper(m, ms[0].margin, line, close, c.k, c.b, c.marketResistFactor, ms[0].isHome)]
         + Shifts(m, c, ms[1..], line, close)
  }

  lemma {:induction false} ShiftsAt(m: Math, c: LegacyConfig, ms: seq<Measure>, line: real, close: real, i: nat)
    requires ValidConfig(c) && i < |ms|
    ensures Shifts(m, c, ms, line, close)[i]
         == ShiftCalcHelper(m, ms[i].margin, line, close, c.k, c.b, c.marketResistFactor, ms[i].isHome)
  {
    if i > 0 {
      ShiftsAt(m, c, ms[1..], line, close, i - 1);
    }
  }

  datatype ChannelShifts = ChannelShifts(
    marginHome: real, marginAway: real, wepaHome: real, wepaAway: real, pffHome: real, pffAway: real)

  /** The six shifts, all against the pre-regression line and the close. */
  function Channels(m: Math, c: LegacyConfig, row: LegacyRow, line: real): ChannelShifts
    requires ValidConfig(c)
  {
    var s := Shifts(m, c, Measures(row), line, row.homeLineClose);
    ChannelShifts(s[0], s[1], s[2], s[3], s[4], s[5])
  }

  function WeightedHome(c: LegacyConfig, s: ChannelShifts): real {
    s.marginHome * c.marginWeight + s.wepaHome * c.wepaWeight + s.pffHome * c.pffWeight
  }

  /** The away weighted shift as written: its WEPA term is the home team's
      WEPA shift. */
  function WeightedAwayAsWritten(c: LegacyConfig, s: ChannelShifts): real {
    s.marginAway * c.marginWeight + s.wepaHome * c.wepaWeight + s.pffAway * c.pffWeight
  }

  /** The away weighted shift with its own WEPA shift. */
  function WeightedAwayIntended(c: LegacyConfig, s: ChannelShifts): real {
    s.marginAway * c.marginWeight + s.wepaAway * c.wepaWeight + s.pffAway * c.pffWeight
  }

  /** With only the WEPA weight set, each weighted shift has the sign of the
      WEPA shift it uses. */
  lemma WepaOnlySigns(c: LegacyConfig, s: ChannelShifts)
    requires c.marginWeight == 0.0 && c.pffWeight == 0.0 && c.wepaWeight > 0.0
    requires s.wepaHome > 0.0 && s.wepaAway < 0.0
    ensures WeightedHome(c, s) > 0.0 && WeightedAwayAsWritten(c, s) > 0.0 && WeightedAwayIntended(c, s) < 0.0
  {
    MulSign(s.wepaHome, c.wepaWeight);
    MulSign(-s.wepaAway, c.wepaWeight);
    assert (-s.wepaAway) * c.wepaWeight == -(s.wepaAway * c.wepaWeight);
  }

  /** With only the WEPA channel weighted, a home team that beat its WEPA
      expectation moves both teams up as written, although the away team,
      whose WEPA margin is the mirror image, fell short and moves down in the
      intended form. */
  lemma WepaHomeLeaksIntoAway(m: Math, c: LegacyConfig, row: LegacyRow, line: real)
    requires ValidConfig(c) && c.b > 1.0 && c.k > 0.0 && c.marketResistFactor >= 0.0
    requires ES.LogPositiveAbove1(m, c.b)
    requires c.marginWeight == 0.0 && c.pffWeight == 0.0 && c.wepaWeight > 0.0
    requires row.homeWepaMargin > -line && row.awayWepaMargin == -row.homeWepaMargin
    ensures WeightedHome(c, Channels(m, c, row, line)) > 0.0
    ensures WeightedAwayAsWritten(c, Channels(m, c, row, line)) > 0.0
    ensures WeightedAwayIntended(c, Channels(m, c, row, line)) < 0.0
  {
    var ms := Measures(row);
    ShiftsAt(m, c, ms, line, row.homeLineClose, 2);
    ShiftsAt(m, c, ms, line, row.homeLineClose, 3);
    ShiftCalcHelperSign(m, row.homeWepaMargin, line, row.homeLineClose, c.k, c.b, c.marketResistFactor, true);
    ShiftCalcHelperSign(m, row.awayWepaMargin, line, row.homeLineClose, c.k, c.b, c.marketResistFactor, false);
    WepaOnlySigns(c, Channels(m, c, row, line));
  }

  datatype Processed = Processed(
    shifts: ChannelShifts, shiftHome: real, shiftAway: real,
    endingHome: real, endingAway: real, seMarket: real, seModel: real)

  /** Ending ratings and the game's squared errors, which both teams share:
      (margin + close)^2 for the market and (margin + pre-regression
      line)^2 for the model. */
  function ProcessValues(m: Math, c: LegacyConfig, row: LegacyRow, p: Projection): (r: Processed)
    requires ValidConfig(c)
    ensures r.endingHome == p.startingHome + r.shiftHome && r.endingAway == p.startingAway + r.shiftAway
    ensures r.shiftAway == WeightedAwayAsWritten(c, r.shifts)
    ensures r.seMarket >= 0.0 && r.seModel >= 0.0
    ensures r.seMarket == SC.GradeSe(row.homeLineClose, row.homeMargin)
    ensures r.seModel == SC.GradeSe(p.linePreMarket, row.homeMargin)
  {
    var s := Channels(m, c, row, p.linePreMarket);
    var wh := WeightedHome(c, s);
    var wa := WeightedAwayAsWritten(c, s);
    SC.GradeSeProperties(row.homeLineClose, row.homeMargin);
    SC.GradeSeProperties(p.linePreMarket, row.homeMargin);
    Processed(s, wh, wa, p.startingHome + wh, p.startingAway + wa,
              Sq(row.homeMargin + row.homeLineClose), Sq(row.homeMargin + p.linePreMarket))
  }

  /** The first writes to one side's entry: ratings, week and the rolling
      adjustment `start * (1 - a) + |shift| * a` with a = 2 / (1 + span). */
  function Rated(c: LegacyConfig, e: Entry, week: int, start: real, ending: real, shift: real, adjStart: real)
    : (r: Entry)
    requires c.nfeloSpan != -1.0
    ensures r.starting == Some(start) && r.ending == Some(ending) && r.week == Some(week)
    ensures r.adjStart == adjStart
    ensures r.adjEnd == NR.Ema(adjStart, shift, NR.Alpha(c.nfeloSpan))
    ensures r.modelSeEnd == e.modelSeEnd && r.marketSeEnd == e.marketSeEnd
  {
    e.(starting := Some(start), ending := Some(ending), week := Some(week),
       adjStart := adjStart, adjEnd := NR.Ema(adjStart, shift, NR.Alpha(c.nfeloSpan)))
  }

  /** The later writes: both rolling squared errors, with a = 2 / (1 +
      se_span); the squared errors are nonnegative, so |se| = se. */
  function SeRolled(c: LegacyConfig, e: Entry, modelSeStart: real, marketSeStart: real, v: Processed): (r: Entry)
    requires c.seSpan != -1.0
    ensures r.starting == e.starting && r.ending == e.ending && r.week == e.week
    ensures r.adjStart == e.adjStart && r.adjEnd == e.adjEnd
    ensures r.marketSeEnd == NR.Ema(marketSeStart, v.seMarket, NR.Alpha(c.seSpan))
    ensures r.modelSeEnd == NR.Ema(modelSeStart, v.seModel, NR.Alpha(c.seSpan))
  {
    var a := NR.Alpha(c.seSpan);
    e.(marketSeEnd := NR.Ema(marketSeStart, v.seMarket, a), modelSeEnd := NR.Ema(modelSeStart, v.seModel, a))
  }

  /** With spans of at least 1, rolling values that start nonnegative stay
      nonnegative. */
  lemma RollingStaysNonnegative(c: LegacyConfig, e: Entry, week: int, start: real, ending: real, shift: real,
                                adjStart: real, modelSeStart: real, marketSeStart: real, v: Processed)
    requires c.nfeloSpan >= 1.0 && c.seSpan >= 1.0
    requires adjStart >= 0.0 && modelSeStart >= 0.0 && marketSeStart >= 0.0 && v.seMarket >= 0.0 && v.seModel >= 0.0
    ensures var r := SeRolled(c, Rated(c, e, week, start, ending, shift, adjStart), modelSeStart, marketSeStart, v);
            r.adjEnd >= 0.0 && r.modelSeEnd >= 0.0 && r.marketSeEnd >= 0.0
  {
    NR.AlphaInUnit(c.nfeloSpan);
    NR.AlphaInUnit(c.seSpan);
    NR.EmaBetween(adjStart, shift, NR.Alpha(c.nfeloSpan));
    NR.EmaBetween(marketSeStart, v.seMarket, NR.Alpha(c.seSpan));
    NR.EmaBetween(modelSeStart, v.seModel, NR.Alpha(c.seSpan));
  }

  /** Week 17 appends the home then the away ending rating to the season's
      list of final ratings. */
  function YearlyAfter(yearly: map<int, seq<real>>, row: LegacyRow, v: Processed): (r: map<int, seq<real>>)
    ensures row.week != 17 ==> r == yearly
    ensures row.week == 17 ==> r.Keys == yearly.Keys + {row.season}
    ensures row.week == 17 ==>
      r[row.season] == (if row.season in yearly then yearly[row.season] else []) + [v.endingHome, v.endingAway]
    ensures forall s :: s in yearly && s != row.season ==> s in r && r[s] == yearly[s]
  {
    if row.week == 17 then
      yearly[row.season := (if row.season in yearly then yearly[row.season] else []) + [v.endingHome, v.endingAway]]
    else yearly
  }

  /** The length of a season's list of final ratings. */
  function YearLen(yearly: map<int, seq<real>>, season: int): nat {
    if season in yearly then |yearly[season]| else 0
  }

  // -------------------------------------------------------------------
  // generate_nfelo: one row

  datatype LegacyOut = LegacyOut(projection: Projection, processed: Processed)

  datatype StepOutcome = StepOutcome(result: Result<LegacyOut, Error>, dict: EloDict, yearly: map<int, seq<real>>)

  /** The rating writes for one side: a KeyError when the entry does not
      exist, otherwise the entry updated and every other entry kept. */
  function WriteRating(c: LegacyConfig, d: EloDict, team: string, row: LegacyRow, start: real, ending: real,
                       shift: real, adjStart: real)
    : (r: Result<EloDict, Error>)
    requires c.nfeloSpan != -1.0
    ensures r.Ok? <==> HasEntry(d, team, row.gameId)
    ensures r.Ok? ==>
      r.value.Keys == d.Keys
      && r.value[(team, row.gameId)].starting == Some(start)
      && r.value[(team, row.gameId)].ending == Some(ending)
  {
    var k := (team, row.gameId);
    if k !in d then Err(KeyMissing(row.gameId))
    else Ok(d[k := Rated(c, d[k], row.week, start, ending, shift, adjStart)])
  }

  /** The squared-error writes for one side, once its entry exists. */
  function WriteSe(c: LegacyConfig, d: EloDict, team: string, row: LegacyRow, modelSeStart: real, marketSeStart: real,
                   v: Processed): (r: EloDict)
    requires c.seSpan != -1.0 && HasEntry(d, team, row.gameId)
    ensures r.Keys == d.Keys
    ensures r[(team, row.gameId)].starting == d[(team, row.gameId)].starting
    ensures r[(team, row.gameId)].ending == d[(team, row.gameId)].ending
  {
    var k := (team, row.gameId);
    d[k := SeRolled(c, d[k], modelSeStart, marketSeStart, v)]
  }

  /** The writes of one row once its projection is known, in source order:
      the rating weight 2 / (1 + nfelo_span), the away ratings, the home
      ratings, the squared-error weight 2 / (1 + se_span), the away and home
      squared errors, then week 17's final ratings.  A missing entry raises
      at its first write and a span of -1 at its weight, each after any
      earlier write. */
  function Commit(c: LegacyConfig, d: EloDict, yearly: map<int, seq<real>>, row: LegacyRow, p: Projection, v: Processed)
    : (r: StepOutcome)
    requires ValidConfig(c)
    ensures r.result.Ok? ==> r.result.value == LegacyOut(p, v) && r.yearly == YearlyAfter(yearly, row, v)
    ensures r.result.Err? ==> r.yearly == yearly
    ensures c.nfeloSpan == -1.0 ==> r == StepOutcome(Err(ZeroDivision), d, yearly)
    ensures c.seSpan == -1.0 ==> r.result.Err?
  {
    if c.nfeloSpan == -1.0 then StepOutcome(Err(ZeroDivision), d, yearly)
    else
      var wa := WriteRating(c, d, row.awayTeam, row, p.startingAway, v.endingAway, v.shiftAway, p.rolling.adjAway);
      if wa.Err? then StepOutcome(Err(wa.error), d, yearly)
      else
        var wh := WriteRating(c, wa.value, row.homeTeam, row, p.startingHome, v.endingHome, v.shiftHome, p.rolling.adjHome);
        if wh.Err? then StepOutcome(Err(wh.error), wa.value, yearly)
        else if c.seSpan == -1.0 then StepOutcome(Err(ZeroDivision), wh.value, yearly)
        else
          var d3 := WriteSe(c, wh.value, row.awayTeam, row, p.rolling.se.modelSeAway, p.rolling.se.marketSeAway, v);
          var d4 := WriteSe(c, d3, row.homeTeam, row, p.rolling.se.modelSeHome, p.rolling.se.marketSeHome, v);
          StepOutcome(Ok(LegacyOut(p, v)), d4, YearlyAfter(yearly, row, v))
  }

  /** A row whose projection succeeded writes the game's two entries with
      their starting and ending ratings. */
  lemma CommitWritesEntries(c: LegacyConfig, d: EloDict, yearly: map<int, seq<real>>, row: LegacyRow, p: Projection, v: Processed)
    requires ValidConfig(c) && row.homeTeam != row.awayTeam
    ensures var r := Commit(c, d, yearly, row, p, v);
            r.result.Ok? ==>
              r.result.value == LegacyOut(p, v)
              && HasEntry(r.dict, row.homeTeam, row.gameId) && HasEntry(r.dict, row.awayTeam, row.gameId)
              && r.dict[(row.homeTeam, row.gameId)].starting == Some(p.startingHome)
              && r.dict[(row.homeTeam, row.gameId)].ending == Some(v.endingHome)
              && r.dict[(row.awayTeam, row.gameId)].starting == Some(p.startingAway)
              && r.dict[(row.awayTeam, row.gameId)].ending == Some(v.endingAway)
  {
    if c.nfeloSpan != -1.0 && c.seSpan != -1.0 {
      var wa := WriteRating(c, d, row.awayTeam, row, p.startingAway, v.endingAway, v.shiftAway, p.rolling.adjAway);
      if wa.Ok? {
        var wh := WriteRating(c, wa.value, row.homeTeam, row, p.startingHome, v.endingHome, v.shiftHome, p.rolling.adjHome);
        if wh.Ok? {
          assert (row.awayTeam, row.gameId) != (row.homeTeam, row.gameId);
          assert HasEntry(wa.value, row.awayTeam, row.gameId);
          var d3 := WriteSe(c, wh.value, row.awayTeam, row, p.rolling.se.modelSeAway, p.rolling.se.marketSeAway, v);
          assert d3[(row.homeTeam, row.gameId)] == wh.value[(row.homeTeam, row.gameId)];
        }
      }
    }
  }

  /** Every other game's entries are left as they were, a missing away
      entry fails before any write, and the final-ratings lists change only
      in week 17. */
  lemma CommitFrame(c: LegacyConfig, d: EloDict, yearly: map<int, seq<real>>, row: LegacyRow, p: Projection, v: Processed)
    requires ValidConfig(c)
    ensures var r := Commit(c, d, yearly, row, p, v);
            r.dict.Keys == d.Keys && forall k :: k in d && k.1 != row.gameId ==> r.dict[k] == d[k]
    ensures var r := Commit(c, d, yearly, row, p, v);
            !HasEntry(d, row.awayTeam, row.gameId) ==> r.result.Err? && r.dict == d
    ensures var r := Commit(c, d, yearly, row, p, v);
            r.result.Err? || row.week != 17 ==> r.yearly == yearly
  {
    if c.nfeloSpan != -1.0 {
      var wa := WriteRating(c, d, row.awayTeam, row, p.startingAway, v.endingAway, v.shiftAway, p.rolling.adjAway);
      if wa.Ok? {
        var wh := WriteRating(c, wa.value, row.homeTeam, row, p.startingHome, v.endingHome, v.shiftHome, p.rolling.adjHome);
        if wh.Ok? && c.seSpan != -1.0 {
          var d3 := WriteSe(c, wh.value, row.awayTeam, row, p.rolling.se.modelSeAway, p.rolling.se.marketSeAway, v);
        }
      }
    }
  }

  /** A squared-error span of -1 raises only after both sides' rating
      writes, which stay in the dictionary with the row's ratings. */
  lemma SeSpanRaisesAfterRatings(c: LegacyConfig, d: EloDict, yearly: map<int, seq<real>>, row: LegacyRow,
                                 p: Projection, v: Processed)
    requires ValidConfig(c) && c.nfeloSpan != -1.0 && c.seSpan == -1.0 && row.homeTeam != row.awayTeam
    requires HasEntry(d, row.homeTeam, row.gameId) && HasEntry(d, row.awayTeam, row.gameId)
    ensures var r := Commit(c, d, yearly, row, p, v);
            r.result == Err(ZeroDivision) && r.yearly == yearly
            && r.dict[(row.homeTeam, row.gameId)].starting == Some(p.startingHome)
            && r.dict[(row.homeTeam, row.gameId)].ending == Some(v.endingHome)
            && r.dict[(row.awayTeam, row.gameId)].starting == Some(p.startingAway)
            && r.dict[(row.awayTeam, row.gameId)].ending == Some(v.endingAway)
  {
    var wa := WriteRating(c, d, row.awayTeam, row, p.startingAway, v.endingAway, v.shiftAway, p.rolling.adjAway);
    assert HasEntry(wa.value, row.homeTeam, row.gameId);
    var wh := WriteRating(c, wa.value, row.homeTeam, row, p.startingHome, v.endingHome, v.shiftHome, p.rolling.adjHome);
    assert (row.awayTeam, row.gameId) != (row.homeTeam, row.gameId);
    assert wh.value[(row.awayTeam, row.gameId)] == wa.value[(row.awayTeam, row.gameId)];
  }

  /** A successful row adds two final ratings to its own season in week 17
      and none otherwise. */
  lemma CommitYearlyLen(c: LegacyConfig, d: EloDict, yearly: map<int, seq<real>>, row: LegacyRow,
                        p: Projection, v: Processed, season: int)
    requires ValidConfig(c)
    ensures var r := Commit(c, d, yearly, row, p, v);
            r.result.Ok? ==>
              YearLen(r.yearly, season) == YearLen(yearly, season) + (if row.week == 17 && row.season == season then 2 else 0)
  {
    var r := Commit(c, d, yearly, row, p, v);
    if r.result.Ok? {
      assert r.yearly == YearlyAfter(yearly, row, v);
    }
  }

  /** generate_nfelo for one row: the projection, then its writes.  An
      exception before the first write leaves the state unchanged. */
  function Step(m: Math, c: LegacyConfig, t: Tables, d: EloDict, yearly: map<int, seq<real>>, row: LegacyRow)
    : (r: StepOutcome)
    requires ValidConfig(c)
    ensures r.result.Ok? ==> r.yearly == YearlyAfter(yearly, row, r.result.value.processed)
    ensures r.result.Err? ==> r.yearly == yearly
  {
    var pr := Project(m, c, t, d, yearly, row);
    if pr.Err? then StepOutcome(Err(pr.error), d, yearly)
    else Commit(c, d, yearly, row, pr.value, ProcessValues(m, c, row, pr.value))
  }

  /** A team's starting rating away from its first game of a season is the
      ending rating stored for its previous game. */
  lemma ProjectStartsFromPreviousEnding(m: Math, c: LegacyConfig, t: Tables, d: EloDict, yearly: map<int, seq<real>>,
                                        row: LegacyRow)
    requires ValidConfig(c) && row.gameNumberHome != 1
    ensures var pr := Project(m, c, t, d, yearly, row);
            pr.Ok? ==>
              PrevEntry(d, row.homeTeam, row.prevGameIdHome).Some?
              && PrevEntry(d, row.homeTeam, row.prevGameIdHome).value.ending == Some(pr.value.startingHome)
  {
  }

  // -------------------------------------------------------------------
  // calc_nfelo: the rows in order

  datatype RunOutcome = RunOutcome(result: Result<seq<LegacyOut>, Error>, dict: EloDict, yearly: map<int, seq<real>>)

  /** One row's step, from the state before it to its outcome. */
  type Stepper = (EloDict, map<int, seq<real>>, LegacyRow) -> StepOutcome

  /** `DataFrame.apply(step)` with a step that updates shared state: the rows
      in order, stopping at the first exception with the state as it then
      was. */
  function Fold(step: Stepper, d: EloDict, yearly: map<int, seq<real>>, rows: seq<LegacyRow>): (r: RunOutcome)
    ensures r.result.Ok? ==> |r.result.value| == |rows|
  {
    if |rows| == 0 then RunOutcome(Ok([]), d, yearly)
    else
      var prev := Fold(step, d, yearly, rows[..|rows| - 1]);
      if prev.result.Err? then prev
      else
        var s := step(prev.dict, prev.yearly, rows[|rows| - 1]);
        if s.result.Err? then RunOutcome(Err(s.result.error), s.dict, s.yearly)
        else RunOutcome(Ok(prev.result.value + [s.result.value]), s.dict, s.yearly)
  }

  /** generate_nfelo with a fixed configuration and fixed tables. */
  function LegacyStep(m: Math, c: LegacyConfig, t: Tables): Stepper
    requires ValidConfig(c)
  {
    (d: EloDict, yearly: map<int, seq<real>>, row: LegacyRow) => Step(m, c, t, d, yearly, row)
  }

  /** calc_nfelo's `apply`: generate_nfelo over the rows in order. */
  function Run(m: Math, c: LegacyConfig, t: Tables, d: EloDict, yearly: map<int, seq<real>>, rows: seq<LegacyRow>)
    : RunOutcome
    requires ValidConfig(c)
  {
    Fold(LegacyStep(m, c, t), d, yearly, rows)
  }

  /** A run that has succeeded so far takes the next row's step. */
  lemma FoldExtends(step: Stepper, d: EloDict, yearly: map<int, seq<real>>, rows: seq<LegacyRow>, i: nat)
    requires i < |rows|
    ensures var prev := Fold(step, d, yearly, rows[..i]);
            var s := step(prev.dict, prev.yearly, rows[i]);
            prev.result.Ok? ==>
              Fold(step, d, yearly, rows[..i + 1])
                == if s.result.Err? then RunOutcome(Err(s.result.error), s.dict, s.yearly)
                   else RunOutcome(Ok(prev.result.value + [s.result.value]), s.dict, s.yearly)
  {
    assert rows[..i + 1][..i] == rows[..i];
  }

  /** Once a prefix of the rows fails, the whole run ends as that prefix did. */
  lemma {:induction false} FoldKeepsError(step: Stepper, d: EloDict, yearly: map<int, seq<real>>,
                                          rows: seq<LegacyRow>, n: nat)
    requires n <= |rows|
    requires Fold(step, d, yearly, rows[..n]).result.Err?
    ensures Fold(step, d, yearly, rows) == Fold(step, d, yearly, rows[..n])
    decreases |rows|
  {
    if n < |rows| {
      var init := rows[..|rows| - 1];
      assert init[..n] == rows[..n];
      FoldKeepsError(step, d, yearly, init, n);
    } else {
      assert rows[..n] == rows;
    }
  }

  /** A step whose success adds exactly week 17's final ratings. */
  ghost predicate AddsFinalRatings(step: Stepper) {
    forall d, yearly, row :: step(d, yearly, row).result.Ok? ==>
      step(d, yearly, row).yearly == YearlyAfter(yearly, row, step(d, yearly, row).result.value.processed)
  }

  lemma LegacyStepAddsFinalRatings(m: Math, c: LegacyConfig, t: Tables)
    requires ValidConfig(c)
    ensures AddsFinalRatings(LegacyStep(m, c, t))
  {
  }

  /** The number of week-17 rows of a season. */
  function Week17Count(rows: seq<LegacyRow>, season: int): nat {
    if |rows| == 0 then 0
    else Week17Count(rows[..|rows| - 1], season)
         + (if rows[|rows| - 1].week == 17 && rows[|rows| - 1].season == season then 1 else 0)
  }

  lemma {:induction false} FoldYearlyCounts(step: Stepper, d: EloDict, rows: seq<LegacyRow>, season: int)
    requires AddsFinalRatings(step)
    ensures var r := Fold(step, d, map[], rows);
            r.result.Ok? ==> YearLen(r.yearly, season) == 2 * Week17Count(rows, season)
  {
    if |rows| > 0 {
      var init := rows[..|rows| - 1];
      FoldYearlyCounts(step, d, init, season);
      var prev := Fold(step, d, map[], init);
      if prev.result.Ok? {
        var last := rows[|rows| - 1];
        var s := step(prev.dict, prev.yearly, last);
        if s.result.Ok? {
          var v := s.result.value.processed;
          assert s.yearly == YearlyAfter(prev.yearly, last, v);
          assert YearLen(YearlyAfter(prev.yearly, last, v), season)
              == YearLen(prev.yearly, season) + (if last.week == 17 && last.season == season then 2 else 0);
        }
      }
    }
  }

  /** A run that completes leaves two final ratings per week-17 game in each
      season's list. */
  lemma RunYearlyCounts(m: Math, c: LegacyConfig, t: Tables, d: EloDict, rows: seq<LegacyRow>, season: int)
    requires ValidConfig(c)
    ensures var r := Run(m, c, t, d, map[], rows);
            r.result.Ok? ==> YearLen(r.yearly, season) == 2 * Week17Count(rows, season)
  {
    LegacyStepAddsFinalRatings(m, c, t);
    FoldYearlyCounts(LegacyStep(m, c, t), d, rows, season);
  }

  /** calc_nfelo's state: the entries of create_data_struc and the final
      ratings of each season. */
  class LegacyEngine {
    var eloDict: EloDict
    var yearlyElos: map<int, seq<real>>

    constructor (d: EloDict)
      ensures eloDict == d && yearlyElos == map[]
    {
      eloDict := d;
      yearlyElos := map[];
    }

    /** generate_nfelo for one row. */
    method GenerateNfelo(m: Math, c: LegacyConfig, t: Tables, row: LegacyRow) returns (r: Result<LegacyOut, Error>)
      requires ValidConfig(c)
      modifies this
      ensures StepOutcome(r, eloDict, yearlyElos) == Step(m, c, t, old(eloDict), old(yearlyElos), row)
    {
      var pr := Project(m, c, t, eloDict, yearlyElos, row);
      if pr.Err? {
        return Err(pr.error);
      }
      r := WriteGame(m, c, row, pr.value);
    }

    /** The writes of generate_nfelo once the projection is known. */
    method WriteGame(m: Math, c: LegacyConfig, row: LegacyRow, p: Projection) returns (r: Result<LegacyOut, Error>)
      requires ValidConfig(c)
      modifies this
      ensures StepOutcome(r, eloDict, yearlyElos) == Commit(c, old(eloDict), old(yearlyElos), row, p, ProcessValues(m, c, row, p))
    {
      var v := ProcessValues(m, c, row, p);
      if c.nfeloSpan == -1.0 {
        return Err(ZeroDivision);
      }
      var wa := WriteRating(c, eloDict, row.awayTeam, row, p.startingAway, v.endingAway, v.shiftAway, p.rolling.adjAway);
      if wa.Err? {
        return Err(wa.error);
      }
      eloDict := wa.value;
      var wh := WriteRating(c, eloDict, row.homeTeam, row, p.startingHome, v.endingHome, v.shiftHome, p.rolling.adjHome);
      if wh.Err? {
        return Err(wh.error);
      }
      eloDict := wh.value;
      if c.seSpan == -1.0 {
        return Err(ZeroDivision);
      }
      eloDict := WriteSe(c, eloDict, row.awayTeam, row, p.rolling.se.modelSeAway, p.rolling.se.marketSeAway, v);
      eloDict := WriteSe(c, eloDict, row.homeTeam, row, p.rolling.se.modelSeHome, p.rolling.se.marketSeHome, v);
      if row.week == 17 {
        var prior := if row.season in yearlyElos then yearlyElos[row.season] else [];
        yearlyElos := yearlyElos[row.season := prior + [v.endingHome, v.endingAway]];
      }
      r := Ok(LegacyOut(p, v));
    }

    /** calc_nfelo: generate_nfelo over the rows in order. */
    method CalcNfelo(m: Math, c: LegacyConfig, t: Tables, rows: seq<LegacyRow>) returns (r: Result<seq<LegacyOut>, Error>)
      requires ValidConfig(c)
      modifies this
      ensures RunOutcome(r, eloDict, yearlyElos) == Run(m, c, t, old(eloDict), old(yearlyElos), rows)
    {
      var outs: seq<LegacyOut> := [];
      ghost var d0, y0 := eloDict, yearlyElos;
      for i := 0 to |rows|
        invariant RunOutcome(Ok(outs), eloDict, yearlyElos) == Run(m, c, t, d0, y0, rows[..i])
      {
        var s := RunNext(m, c, t, d0, y0, rows, i, outs);
        if s.Err? {
          return Err(s.error);
        }
        outs := outs + [s.value];
      }
      assert rows[..|rows|] == rows;
      r := Ok(outs);
    }

    /** One more row of the run. */
    method RunNext(m: Math, c: LegacyConfig, t: Tables, ghost d0: EloDict, ghost y0: map<int, seq<real>>,
                   rows: seq<LegacyRow>, i: nat, ghost outs: seq<LegacyOut>) returns (s: Result<LegacyOut, Error>)
      requires ValidConfig(c) && i < |rows|
      requires RunOutcome(Ok(outs), eloDict, yearlyElos) == Run(m, c, t, d0, y0, rows[..i])
      modifies this
      ensures s.Err? ==> RunOutcome(Err(s.error), eloDict, yearlyElos) == Run(m, c, t, d0, y0, rows)
      ensures s.Ok? ==> RunOutcome(Ok(outs + [s.value]), eloDict, yearlyElos) == Run(m, c, t, d0, y0, rows[..i + 1])
    {
      s := GenerateNfelo(m, c, t, rows[i]);
      FoldExtends(LegacyStep(m, c, t), d0, y0, rows, i);
      if s.Err? {
        FoldKeepsError(LegacyStep(m, c, t), d0, y0, rows, i + 1);
      }
    }
  }

  // -------------------------------------------------------------------
  // score_models

  /** 538's Brier form, written out per model in score_models. */
  function LegacyBrier(probability: real, margin: real): (r: real)
    ensures r == SC.BrierScore(probability, margin)
    ensures r <= 25.0
  {
    if margin > 0.0 then 25.0 - Sq(probability * 100.0 - 100.0) / 100.0
    else 25.0 - Sq((1.0 - probability) * 100.0 - 100.0) / 100.0
  }

  /** Straight-up: NaN on a tied game, otherwise 1 iff the line favoured the
      winner. */
  function LegacySu(line: real, margin: real): (r: Option<real>)
    ensures SC.IsGrade(r)
    ensures r.None? <==> margin == 0.0
    ensures margin > 0.0 ==> (r == Some(1.0) <==> line < 0.0)
    ensures margin < 0.0 ==> (r == Some(1.0) <==> line > 0.0)
  {
    if margin == 0.0 then None
    else if margin > 0.0 then (if line < 0.0 then Some(1.0) else Some(0.0))
    else (if line > 0.0 then Some(1.0) else Some(0.0))
  }

  /** The legacy and current straight-up grades agree except on a tied game
      (legacy NaN, current 0 for a nonzero line) and on a line that exactly
      predicted the margin (legacy graded, current NaN). */
  lemma LegacySuVsGradeSu(line: real, margin: real)
    ensures margin != 0.0 && -line != margin ==> LegacySu(line, margin) == SC.GradeSu(line, margin)
    ensures margin == 0.0 && line != 0.0 ==> LegacySu(line, margin).None? && SC.GradeSu(line, margin) == Some(0.0)
    ensures margin != 0.0 && -line == margin ==> LegacySu(line, margin) == Some(1.0) && SC.GradeSu(line, margin).None?
  {
    if margin == 0.0 && line != 0.0 {
      SC.GradeSuCorrectIff(line, margin);
    } else if margin != 0.0 && -line != margin {
      SC.GradeSuCorrectIff(line, margin);
    }
  }

  /** ATS of a rounded model line against a market line that may be null:
      NaN for a null line, equal lines or a push; otherwise the bet is on
      home when the model line is lower and wins iff home covers, on away
      when it is higher and wins iff home fails to cover. */
  function LegacyAts(modelRounded: real, market: Option<real>, margin: real): (r: Option<real>)
    ensures SC.IsGrade(r)
    ensures market.None? ==> r.None?
    ensures market.Some? ==> r == SC.GradeBet(modelRounded, market.value, margin, None, None, false)
  {
    match market
    case None => None
    case Some(line) =>
      if modelRounded == line || margin == -1.0 * line then None
      else if modelRounded < line then (if margin > -1.0 * line then Some(1.0) else Some(0.0))
      else (if margin < -1.0 * line then Some(1.0) else Some(0.0))
  }

  /** The 538/qbelo break-even grade: as ATS, but NaN unless the lines are
      more than 1.5 points apart. */
  function LegacyAtsBreakEven(modelRounded: real, market: Option<real>, margin: real): (r: Option<real>)
    ensures SC.IsGrade(r)
    ensures r.Some? ==> market.Some? && Abs(modelRounded - market.value) > 1.5 && r == LegacyAts(modelRounded, market, margin)
  {
    match market
    case None => None
    case Some(line) =>
      if modelRounded == line || margin == -1.0 * line || Abs(modelRounded - line) <= 1.5 then None
      else LegacyAts(modelRounded, market, margin)
  }

  /** The legacy break-even rule is the current grade_bet with be_only and no
      EV columns, whose 1.5-point fallback EVs pick the same rows. */
  lemma LegacyAtsBreakEvenIsGradeBet(modelRounded: real, line: real, margin: real)
    ensures LegacyAtsBreakEven(modelRounded, Some(line), margin)
         == SC.GradeBet(modelRounded, line, margin, None, None, true)
  {
    var plays := SC.CountsAsPlay(modelRounded, line, None, None, true);
    assert plays <==> Abs(modelRounded - line) > 1.5;
  }

  /** The nfelo break-even grade: NaN for a null line or a push; a home bet
      when the home EV is positive, else an away bet when the away EV is,
      else NaN. */
  function NfeloBreakEven(market: Option<real>, margin: real, homeEv: real, awayEv: real): (r: Option<real>)
    ensures SC.IsGrade(r)
    ensures r.Some? <==> market.Some? && margin != -market.value && (homeEv > 0.0 || awayEv > 0.0)
    ensures r.Some? && homeEv > 0.0 ==> (r == Some(1.0) <==> margin > -market.value)
    ensures r.Some? && homeEv <= 0.0 ==> (r == Some(1.0) <==> margin < -market.value)
  {
    match market
    case None => None
    case Some(line) =>
      if margin == -1.0 * line then None
      else if homeEv > 0.0 then (if margin > -1.0 * line then Some(1.0) else Some(0.0))
      else if awayEv > 0.0 then (if margin < -1.0 * line then Some(1.0) else Some(0.0))
      else None
  }

  /** The columns score_models reads. */
  datatype GradeInput = GradeInput(
    homeMargin: real, home538Prob: real, qbeloProb: real, nfeloProb: real, nfeloProbPreMarket: real,
    marketProb: real, marketProbOpen: real,
    line538: real, lineQbelo: real, nfeloLineClose: real, nfeloLinePreMarket: real,
    homeLineClose: real, homeLineOpen: Option<real>,
    rounded538: real, roundedQbelo: real, nfeloLineCloseRounded: real, nfeloLineOpenRounded: real,
    homeEv: real, awayEv: real, homeEvOpen: real, awayEvOpen: real,
    homeEvUnregressed: real, awayEvUnregressed: real)

  /** The grades score_models assigns to one row. */
  datatype Grades = Grades(
    brier538: real, brierQbelo: real, brierNfelo: real, brierUnregressed: real, brierMarket: real, brierMarketOpen: real,
    se538: real, seQbelo: real, seNfelo: real, seUnregressed: real, seMarket: real, seMarketOpen: Option<real>,
    su538: Option<real>, suQbelo: Option<real>, suNfelo: Option<real>, suUnregressed: Option<real>,
    suMarket: Option<real>, suMarketOpen: Option<real>,
    ats538Close: Option<real>, ats538Open: Option<real>, atsQbeloClose: Option<real>, atsQbeloOpen: Option<real>,
    atsNfeloClose: Option<real>, atsNfeloOpen: Option<real>,
    be538Close: Option<real>, be538Open: Option<real>, beQbeloClose: Option<real>, beQbeloOpen: Option<real>,
    beNfeloClose: Option<real>, beNfeloOpen: Option<real>, beNfeloUnregressed: Option<real>)

  /** A null open line makes its squared error NaN and, since NaN compares
      false, its straight-up grade 0. */
  function OpenSu(open: Option<real>, margin: real): Option<real> {
    match open
    case Some(l) => LegacySu(l, margin)
    case None => if margin == 0.0 then None else Some(0.0)
  }

  /** score_models for one row. */
  function ScoreRow(g: GradeInput): (r: Grades)
    ensures r.brierNfelo <= 25.0 && r.brierMarket <= 25.0
    ensures r.atsNfeloClose == LegacyAts(g.nfeloLineCloseRounded, Some(g.homeLineClose), g.homeMargin)
    ensures r.be538Close == SC.GradeBet(g.rounded538, g.homeLineClose, g.homeMargin, None, None, true)
  {
    LegacyAtsBreakEvenIsGradeBet(g.rounded538, g.homeLineClose, g.homeMargin);
    var m := g.homeMargin;
    var close := Some(g.homeLineClose);
    Grades(
      LegacyBrier(g.home538Prob, m), LegacyBrier(g.qbeloProb, m), LegacyBrier(g.nfeloProb, m),
      LegacyBrier(g.nfeloProbPreMarket, m), LegacyBrier(g.marketProb, m), LegacyBrier(g.marketProbOpen, m),
      SC.GradeSe(g.line538, m), SC.GradeSe(g.lineQbelo, m), SC.GradeSe(g.nfeloLineClose, m),
      SC.GradeSe(g.nfeloLinePreMarket, m), SC.GradeSe(g.homeLineClose, m),
      (match g.homeLineOpen case Some(l) => Some(SC.GradeSe(l, m)) case None => None),
      LegacySu(g.line538, m), LegacySu(g.lineQbelo, m), LegacySu(g.nfeloLineClose, m),
      LegacySu(g.nfeloLinePreMarket, m), LegacySu(g.homeLineClose, m), OpenSu(g.homeLineOpen, m),
      LegacyAts(g.rounded538, close, m), LegacyAts(g.rounded538, g.homeLineOpen, m),
      LegacyAts(g.roundedQbelo, close, m), LegacyAts(g.roundedQbelo, g.homeLineOpen, m),
      LegacyAts(g.nfeloLineCloseRounded, close, m), LegacyAts(g.nfeloLineOpenRounded, g.homeLineOpen, m),
      LegacyAtsBreakEven(g.rounded538, close, m), LegacyAtsBreakEven(g.rounded538, g.homeLineOpen, m),
      LegacyAtsBreakEven(g.roundedQbelo, close, m), LegacyAtsBreakEven(g.roundedQbelo, g.homeLineOpen, m),
      NfeloBreakEven(close, m, g.homeEv, g.awayEv), NfeloBreakEven(g.homeLineOpen, m, g.homeEvOpen, g.awayEvOpen),
      NfeloBreakEven(close, m, g.homeEvUnregressed, g.awayEvUnregressed))
  }

  /** grade_models: score_models applied to every row, in order. */
  method GradeModels(rows: seq<GradeInput>) returns (gs: seq<Grades>)
    ensures |gs| == |rows|
    ensures forall i :: 0 <= i < |rows| ==> gs[i] == ScoreRow(rows[i])
  {
    gs := [];
    var i := 0;
    while i < |rows|
      invariant 0 <= i <= |rows| && |gs| == i
      invariant forall j :: 0 <= j < i ==> gs[j] == ScoreRow(rows[j])
    {
      gs := gs + [ScoreRow(rows[i])];
      i := i + 1;
    }
  }
}
