/** Grading one model variant against the results
    (nfelo/Performance/NfeloGraderModel.py): per-game Brier, squared error,
    ATS, break-even ATS and straight-up columns, and the score record that
    aggregates them.

    A pandas frame is a `Frame` of columns; `None` in a column is NaN.  The
    column names the source builds with `'{0}_brier'.format(model_name)` and
    the like are the structured keys `Graded(model, metric)`. */
module GraderModel {
  import opened Wrappers
  import opened Numerics
  import opened Scoring

  /** A numeric column; `None` is NaN. */
  type Column = seq<Option<real>>

  /** The per-model columns NfeloGraderModel adds. */
  datatype Metric = HomeLine | Brier | Se | Ats | AtsBe | Su

  /** A column name: one the input frame brings, or `<model>_<metric>`. */
  datatype ColKey = Input(name: string) | Graded(model: string, metric: Metric)

  /** A data frame: the `game_id`, `season` and `week` columns, and the
      numeric columns by name. */
  datatype Frame = Frame(gameId: seq<string>, season: seq<int>, week: seq<int>,
                         cols: map<ColKey, Column>)
  {
    /** Every column has one entry per row. */
    predicate Valid() {
      |season| == |gameId| && |week| == |gameId| &&
      forall k :: k in cols ==> |cols[k]| == |gameId|
    }
  }

  /** The order in which the constructor adds a variant's columns. */
  const AddOrder: seq<Metric> := [Brier, HomeLine, Se, Ats, AtsBe, Su]

  /** The order of merge_with's column list after `game_id`. */
  const MergeOrder: seq<Metric> := [HomeLine, Brier, Se, Ats, AtsBe, Su]

  /** Whether a column name is one of a variant's columns for some
      metrics. */
  predicate KeyOf(k: ColKey, name: string, ms: seq<Metric>) {
    k.Graded? && k.model == name && k.metric in ms
  }

  /** Whether a column name is one of the six columns of a variant. */
  predicate GradedKey(k: ColKey, name: string) {
    k.Graded? && k.model == name
  }

  /** A frame holds all six columns of a variant. */
  predicate HasGrades(df: Frame, name: string) {
    forall m: Metric :: Graded(name, m) in df.cols
  }

  /** Every metric is in both orders. */
  lemma EveryMetricInBothOrders()
    ensures forall m: Metric :: m in MergeOrder && m in AddOrder
  {
    forall m: Metric ensures m in MergeOrder && m in AddOrder {
      match m
      case HomeLine => assert MergeOrder[0] == m && AddOrder[1] == m;
      case Brier => assert MergeOrder[1] == m && AddOrder[0] == m;
      case Se => assert MergeOrder[2] == m && AddOrder[2] == m;
      case Ats => assert MergeOrder[3] == m && AddOrder[3] == m;
      case AtsBe => assert MergeOrder[4] == m && AddOrder[4] == m;
      case Su => assert MergeOrder[5] == m && AddOrder[5] == m;
    }
  }

  /** Which input columns a model variant is graded from; `None` for an EV
      column the variant does not have. */
  datatype ModelSpec = ModelSpec(modelLine: string, marketLine: string, modelProb: string,
                                 homeEv: Option<string>, awayEv: Option<string>)

  /** The series the constructor looks up; an EV series is `None` when the
      variant has no EV column. */
  datatype Series = Series(modelLine: Column, marketLine: Column, winProb: Column, result: Column,
                           homeEv: Option<Column>, awayEv: Option<Column>)
  {
    predicate Fits(n: nat) {
      |modelLine| == n && |marketLine| == n && |winProb| == n && |result| == n &&
      (homeEv.Some? ==> |homeEv.value| == n) && (awayEv.Some? ==> |awayEv.value| == n)
    }
  }

  // -------------------------------------------------------------------
  // looking up the columns

  /** `df[name]`: a KeyError when the frame has no such column. */
  function Lookup(df: Frame, name: string): (r: Result<Column, Error>)
    ensures r.Ok? <==> Input(name) in df.cols
    ensures r.Ok? ==> r.value == df.cols[Input(name)]
    ensures r.Err? ==> r.error == KeyMissing(name)
  {
    if Input(name) in df.cols then Ok(df.cols[Input(name)]) else Err(KeyMissing(name))
  }

  /** `None if col is None else df[col]`. */
  function LookupOptional(df: Frame, name: Option<string>): (r: Result<Option<Column>, Error>)
    ensures r.Ok? <==> name.None? || Input(name.value) in df.cols
    ensures r.Ok? && name.None? ==> r.value.None?
    ensures r.Ok? && name.Some? ==> r.value == Some(df.cols[Input(name.value)])
    ensures r.Err? ==> r.error == KeyMissing(name.value)
  {
    if name.None? then Ok(None)
    else
      var c := Lookup(df, name.value);
      if c.Err? then Err(c.error) else Ok(Some(c.value))
  }

  /** Every column a variant needs is in the frame. */
  predicate HasColumns(df: Frame, spec: ModelSpec) {
    Input(spec.modelLine) in df.cols && Input(spec.marketLine) in df.cols &&
    Input(spec.modelProb) in df.cols && Input("home_margin") in df.cols &&
    (spec.homeEv.Some? ==> Input(spec.homeEv.value) in df.cols) &&
    (spec.awayEv.Some? ==> Input(spec.awayEv.value) in df.cols)
  }

  /** The constructor's lookups, in its order (model line, market line,
      probability, `home_margin`, the EV columns): the first missing column
      raises a KeyError. */
  function SelectSeries(df: Frame, spec: ModelSpec): (r: Result<Series, Error>)
    ensures r.Ok? <==> HasColumns(df, spec)
    ensures r.Err? ==> r.error.KeyMissing? && Input(r.error.key) !in df.cols
    ensures r.Ok? ==>
      && r.value.modelLine == df.cols[Input(spec.modelLine)]
      && r.value.marketLine == df.cols[Input(spec.marketLine)]
      && r.value.winProb == df.cols[Input(spec.modelProb)]
      && r.value.result == df.cols[Input("home_margin")]
      && (r.value.homeEv.Some? <==> spec.homeEv.Some?)
      && (r.value.awayEv.Some? <==> spec.awayEv.Some?)
    ensures r.Ok? && df.Valid() ==> r.value.Fits(|df.gameId|)
  {
    var line := Lookup(df, spec.modelLine);
    var market := Lookup(df, spec.marketLine);
    var prob := Lookup(df, spec.modelProb);
    var result := Lookup(df, "home_margin");
    var home := LookupOptional(df, spec.homeEv);
    var away := LookupOptional(df, spec.awayEv);
    if line.Err? then Err(line.error)
    else if market.Err? then Err(market.error)
    else if prob.Err? then Err(prob.error)
    else if result.Err? then Err(result.error)
    else if home.Err? then Err(home.error)
    else if away.Err? then Err(away.error)
    else Ok(Series(line.value, market.value, prob.value, result.value, home.value, away.value))
  }

  // -------------------------------------------------------------------
  // one game's grades, with numpy's NaN semantics

  /** brier_score on one row: NaN with a NaN probability; a NaN margin fails
      `margin > 0`, so it is scored as a game the home side did not win. */
  function BrierElem(p: Option<real>, margin: Option<real>): (r: Option<real>)
    ensures r.None? <==> p.None?
    ensures p.Some? && margin.Some? ==> r == Some(BrierScore(p.value, margin.value))
    ensures p.Some? && margin.None? ==> r == Some(BrierScore(p.value, 0.0))
  {
    if p.None? then None
    else if margin.Some? && margin.value > 0.0 then Some(25.0 - Sq(p.value * 100.0 - 100.0) / 100.0)
    else Some(25.0 - Sq((1.0 - p.value) * 100.0 - 100.0) / 100.0)
  }

  /** The inline `(model_line + result) ** 2`: NaN when either is NaN, and
      otherwise the same value as grade_se_vector. */
  function SeElem(line: Option<real>, result: Option<real>): (r: Option<real>)
    ensures r.Some? <==> line.Some? && result.Some?
    ensures r.Some? ==> r.value == GradeSe(line.value, result.value) && r.value >= 0.0
  {
    if line.Some? && result.Some? then
      GradeSeProperties(line.value, result.value);
      Some(Sq(line.value + result.value))
    else None
  }

  /** grade_bet_vector on one row.  A NaN line fails every comparison, so
      the row is NaN; a NaN result with two different lines fails both
      win tests and grades as a loss when the row counts as a play. */
  function AtsElem(modelLine: Option<real>, marketLine: Option<real>, result: Option<real>,
                   homeEv: Option<real>, awayEv: Option<real>, beOnly: bool): (r: Option<real>)
    ensures IsGrade(r)
    ensures modelLine.None? || marketLine.None? ==> r.None?
    ensures modelLine.Some? && marketLine.Some? && result.Some? ==>
      r == GradeBet(modelLine.value, marketLine.value, result.value, homeEv, awayEv, beOnly)
    ensures modelLine.Some? && marketLine.Some? && result.None? ==>
      r == if modelLine.value != marketLine.value
              && CountsAsPlay(modelLine.value, marketLine.value, homeEv, awayEv, beOnly)
           then Some(0.0) else None
  {
    if modelLine.None? || marketLine.None? then None
    else if result.Some? then GradeBet(modelLine.value, marketLine.value, result.value, homeEv, awayEv, beOnly)
    else if modelLine.value == marketLine.value then None
    else if CountsAsPlay(modelLine.value, marketLine.value, homeEv, awayEv, beOnly) then Some(0.0)
    else None
  }

  /** grade_su_vector on one row: with a NaN line or result, both numpy
      tests are false, so the row is graded as a wrong pick. */
  function SuElem(modelLine: Option<real>, result: Option<real>): (r: Option<real>)
    ensures IsGrade(r)
    ensures modelLine.Some? && result.Some? ==> r == GradeSu(modelLine.value, result.value)
    ensures modelLine.None? || result.None? ==> r == Some(0.0)
  {
    if modelLine.Some? && result.Some? then GradeSu(modelLine.value, result.value)
    else Some(0.0)
  }

  /** Row i of an EV series that may be absent altogether. */
  function EvAt(ev: Option<Column>, i: nat): Option<real>
    requires ev.Some? ==> i < |ev.value|
  {
    if ev.None? then None else ev.value[i]
  }

  // -------------------------------------------------------------------
  // the columns add_brier, add_se, add_ats and add_su assign

  function BrierColumn(s: Series): (r: Column)
    requires s.Fits(|s.modelLine|)
    ensures |r| == |s.modelLine|
  {
    seq(|s.winProb|, i requires 0 <= i < |s.winProb| => BrierElem(s.winProb[i], s.result[i]))
  }

  function SeColumn(s: Series): (r: Column)
    requires s.Fits(|s.modelLine|)
    ensures |r| == |s.modelLine|
  {
    seq(|s.modelLine|, i requires 0 <= i < |s.modelLine| => SeElem(s.modelLine[i], s.result[i]))
  }

  function AtsColumn(s: Series, beOnly: bool): (r: Column)
    requires s.Fits(|s.modelLine|)
    ensures |r| == |s.modelLine|
  {
    seq(|s.modelLine|, i requires 0 <= i < |s.modelLine| =>
      AtsElem(s.modelLine[i], s.marketLine[i], s.result[i], EvAt(s.homeEv, i), EvAt(s.awayEv, i), beOnly))
  }

  function SuColumn(s: Series): (r: Column)
    requires s.Fits(|s.modelLine|)
    ensures |r| == |s.modelLine|
  {
    seq(|s.modelLine|, i requires 0 <= i < |s.modelLine| => SuElem(s.modelLine[i], s.result[i]))
  }

  /** Every ATS, break-even ATS and straight-up grade is 0, 1 or NaN, every
      squared error is nonnegative and every Brier score at most 25. */
  lemma ColumnsAreGrades(s: Series)
    requires s.Fits(|s.modelLine|)
    ensures forall i :: 0 <= i < |s.modelLine| ==>
      IsGrade(AtsColumn(s, false)[i]) && IsGrade(AtsColumn(s, true)[i]) && IsGrade(SuColumn(s)[i])
    ensures forall i :: 0 <= i < |s.modelLine| && SeColumn(s)[i].Some? ==> SeColumn(s)[i].value >= 0.0
    ensures forall i :: 0 <= i < |s.modelLine| && BrierColumn(s)[i].Some? ==> BrierColumn(s)[i].value <= 25.0
  {
  }

  /** For a variant without EV columns (every one except nfelo_open and
      nfelo_close), the break-even grade falls back to the 1.5-point rule:
      a decided row is graded exactly when the lines are more than 1.5
      points apart. */
  lemma NoEvFallsBackToThreshold(s: Series, i: nat)
    requires s.Fits(|s.modelLine|) && s.homeEv.None? && s.awayEv.None?
    requires i < |s.modelLine| && s.modelLine[i].Some? && s.marketLine[i].Some? && s.result[i].Some?
    requires s.modelLine[i].value != s.marketLine[i].value
    requires s.marketLine[i].value + s.result[i].value != 0.0
    ensures AtsColumn(s, true)[i].Some? <==> Abs(s.modelLine[i].value - s.marketLine[i].value) > 1.5
    ensures AtsColumn(s, false)[i].Some?
  {
    GradeBetFallbackThreshold(s.modelLine[i].value, s.marketLine[i].value, s.result[i].value);
    GradeBetSides(s.modelLine[i].value, s.marketLine[i].value, s.result[i].value, None, None);
  }

  /** Grading the market against itself: when the model and market series
      are the same column, every ATS and break-even ATS grade is NaN. */
  lemma SelfGradedAtsIsNaN(s: Series)
    requires s.Fits(|s.modelLine|) && s.modelLine == s.marketLine
    ensures forall i :: 0 <= i < |s.modelLine| ==> AtsColumn(s, false)[i].None? && AtsColumn(s, true)[i].None?
  {
  }

  // -------------------------------------------------------------------
  // pandas aggregates, which skip NaN

  /** `Series.count()`: the non-NaN entries. */
  function CountNa(c: Column): (r: nat)
    ensures r <= |c|
  {
    if |c| == 0 then 0 else CountNa(c[..|c| - 1]) + (if c[|c| - 1].Some? then 1 else 0)
  }

  /** `Series.sum()`: the sum of the non-NaN entries, 0 when there are none. */
  function SumNa(c: Column): real {
    if |c| == 0 then 0.0 else SumNa(c[..|c| - 1]) + (if c[|c| - 1].Some? then c[|c| - 1].value else 0.0)
  }

  /** `Series.mean()`: the mean of the non-NaN entries, NaN when there are
      none. */
  function MeanNa(c: Column): (r: Option<real>)
    ensures r.None? <==> CountNa(c) == 0
  {
    if CountNa(c) == 0 then None else Some(SumNa(c) / CountNa(c) as real)
  }

  /** Entries within [lo, hi] sum to between lo and hi times their count. */
  lemma {:induction false} SumNaWithin(c: Column, lo: real, hi: real)
    requires forall i :: 0 <= i < |c| && c[i].Some? ==> lo <= c[i].value <= hi
    ensures ScaledWithin(lo, hi, SumNa(c), CountNa(c) as real)
  {
    if |c| > 0 {
      var init := c[..|c| - 1];
      assert forall i :: 0 <= i < |init| && init[i].Some? ==> lo <= init[i].value <= hi by {
        forall i | 0 <= i < |init| ensures init[i] == c[i] { }
      }
      SumNaWithin(init, lo, hi);
      NaStep(lo, hi, c[|c| - 1], SumNa(init), CountNa(init) as real, SumNa(c), CountNa(c) as real);
    }
  }

  /** One more entry keeps the sum between lo and hi times the count. */
  lemma NaStep(lo: real, hi: real, last: Option<real>, p: real, w: real, p1: real, w1: real)
    requires ScaledWithin(lo, hi, p, w)
    requires last.Some? ==> lo <= last.value <= hi
    requires p1 == p + (if last.Some? then last.value else 0.0)
    requires w1 == w + (if last.Some? then 1.0 else 0.0)
    ensures ScaledWithin(lo, hi, p1, w1)
  {
    if last.Some? {
      assert lo * w1 == lo * w + lo;
      assert hi * w1 == hi * w + hi;
    }
  }

  /** Entries at most hi sum to at most hi times their count. */
  lemma {:induction false} SumNaAtMost(c: Column, hi: real)
    requires forall i :: 0 <= i < |c| && c[i].Some? ==> c[i].value <= hi
    ensures AtMostTimes(hi, SumNa(c), CountNa(c) as real)
  {
    if |c| > 0 {
      var init := c[..|c| - 1];
      assert forall i :: 0 <= i < |init| && init[i].Some? ==> init[i].value <= hi by {
        forall i | 0 <= i < |init| ensures init[i] == c[i] { }
      }
      SumNaAtMost(init, hi);
      NaStepAtMost(hi, c[|c| - 1], SumNa(init), CountNa(init) as real, SumNa(c), CountNa(c) as real);
    }
  }

  /** `p <= hi * w`. */
  predicate AtMostTimes(hi: real, p: real, w: real) {
    p <= hi * w
  }

  lemma NaStepAtMost(hi: real, last: Option<real>, p: real, w: real, p1: real, w1: real)
    requires AtMostTimes(hi, p, w) && (last.Some? ==> last.value <= hi)
    requires p1 == p + (if last.Some? then last.value else 0.0)
    requires w1 == w + (if last.Some? then 1.0 else 0.0)
    ensures AtMostTimes(hi, p1, w1)
  {
    if last.Some? {
      assert hi * w1 == hi * w + hi;
    }
  }

  /** Nonnegative entries have a nonnegative sum. */
  lemma {:induction false} SumNaNonnegative(c: Column)
    requires forall i :: 0 <= i < |c| && c[i].Some? ==> 0.0 <= c[i].value
    ensures SumNa(c) >= 0.0
  {
    if |c| > 0 {
      var init := c[..|c| - 1];
      assert forall i :: 0 <= i < |init| && init[i].Some? ==> 0.0 <= init[i].value by {
        forall i | 0 <= i < |init| ensures init[i] == c[i] { }
      }
      SumNaNonnegative(init);
    }
  }

  /** Hence the mean of entries within [lo, hi] lies in [lo, hi]. */
  lemma MeanNaWithin(c: Column, lo: real, hi: real)
    requires forall i :: 0 <= i < |c| && c[i].Some? ==> lo <= c[i].value <= hi
    ensures MeanNa(c).Some? ==> lo <= MeanNa(c).value <= hi
  {
    SumNaWithin(c, lo, hi);
    if CountNa(c) > 0 {
      QuotientBetween(SumNa(c), CountNa(c) as real, lo, hi);
    }
  }

  /** The mean of nonnegative entries is nonnegative. */
  lemma MeanNaNonnegative(c: Column)
    requires forall i :: 0 <= i < |c| && c[i].Some? ==> 0.0 <= c[i].value
    ensures MeanNa(c).Some? ==> MeanNa(c).value >= 0.0
  {
    SumNaNonnegative(c);
    if CountNa(c) > 0 {
      var n := CountNa(c) as real;
      var q := SumNa(c) / n;
      assert q * n == SumNa(c);
    }
  }

  // -------------------------------------------------------------------
  // the score record

  /** gen_score_record.  `market_correl`, `brier_adj` and `brier_ats_adj`
      are not part of this model. */
  datatype ScoreRecord = ScoreRecord(
    modelName: string, homeLine: Column, brier: real, brierPerGame: Option<real>,
    su: Option<real>, ats: Option<real>, atsBe: Option<real>, atsBePlayPct: Option<real>,
    se: Option<real>)

  /** The record from the graded columns: the Brier total and mean, the
      NaN-skipping means of the grades and the squared error, and the
      share of rows with a break-even grade (`fillna(0).count()` counts
      every row; with no rows the share is NaN). */
  function ScoreOf(name: string, homeLine: Column, brier: Column, se: Column,
                   ats: Column, atsBe: Column, su: Column): ScoreRecord
    requires |atsBe| == |ats|
  {
    ScoreRecord(name, homeLine, SumNa(brier), MeanNa(brier), MeanNa(su), MeanNa(ats), MeanNa(atsBe),
                Share(CountNa(atsBe), |ats|),
                MeanNa(se))
  }

  /** The record of the columns a series is graded into. */
  function RecordOf(name: string, s: Series): ScoreRecord
    requires s.Fits(|s.modelLine|)
  {
    ScoreOf(name, s.modelLine, BrierColumn(s), SeColumn(s), AtsColumn(s, false), AtsColumn(s, true), SuColumn(s))
  }

  /** Every entry is 0, 1 or NaN. */
  predicate GradeColumn(c: Column) {
    forall i :: 0 <= i < |c| ==> IsGrade(c[i])
  }

  /** k out of n rows as a fraction; numpy's 0 / 0 is NaN. */
  function Share(k: nat, n: nat): (r: Option<real>)
    requires k <= n
    ensures r.Some? <==> n > 0
  {
    if n == 0 then None else Some(k as real / n as real)
  }

  /** A share is a fraction in [0, 1] that times n gives k. */
  lemma ShareWithin(k: nat, n: nat)
    requires k <= n
    ensures Share(k, n).Some? ==> 0.0 <= Share(k, n).value <= 1.0 && Share(k, n).value * n as real == k as real
  {
    if n > 0 {
      QuotientBetween(k as real, n as real, 0.0, 1.0);
    }
  }

  /** The Brier total of a record is at most 25 per scored game. */
  lemma ScoreOfBrier(name: string, homeLine: Column, brier: Column, se: Column,
                     ats: Column, atsBe: Column, su: Column)
    requires |atsBe| == |ats|
    requires forall i :: 0 <= i < |brier| && brier[i].Some? ==> brier[i].value <= 25.0
    ensures ScoreOf(name, homeLine, brier, se, ats, atsBe, su).brier <= 25.0 * CountNa(brier) as real
  {
    SumNaAtMost(brier, 25.0);
  }

  /** The rates of a record: `su`, `ats` and `ats_be` are hit rates in
      [0, 1] and `se` is nonnegative. */
  lemma ScoreOfRates(name: string, homeLine: Column, brier: Column, se: Column,
                     ats: Column, atsBe: Column, su: Column)
    requires |atsBe| == |ats|
    requires GradeColumn(su) && GradeColumn(ats) && GradeColumn(atsBe)
    requires forall i :: 0 <= i < |se| && se[i].Some? ==> se[i].value >= 0.0
    ensures var r := ScoreOf(name, homeLine, brier, se, ats, atsBe, su);
      && (r.su.Some? ==> 0.0 <= r.su.value <= 1.0)
      && (r.ats.Some? ==> 0.0 <= r.ats.value <= 1.0)
      && (r.atsBe.Some? ==> 0.0 <= r.atsBe.value <= 1.0)
      && (r.se.Some? ==> r.se.value >= 0.0)
  {
    MeanNaWithin(su, 0.0, 1.0);
    MeanNaWithin(ats, 0.0, 1.0);
    MeanNaWithin(atsBe, 0.0, 1.0);
    MeanNaNonnegative(se);
  }

  /** The record of a graded series: the bounds of ScoreOfTotals and
      ScoreOfRates. */
  lemma RecordMeaning(name: string, s: Series)
    requires s.Fits(|s.modelLine|)
    ensures var r := RecordOf(name, s);
      && r.brier <= 25.0 * CountNa(BrierColumn(s)) as real
      && (r.su.Some? ==> 0.0 <= r.su.value <= 1.0)
      && (r.ats.Some? ==> 0.0 <= r.ats.value <= 1.0)
      && (r.atsBe.Some? ==> 0.0 <= r.atsBe.value <= 1.0)
      && (r.se.Some? ==> r.se.value >= 0.0)
      && (r.atsBePlayPct.Some? <==> |s.modelLine| > 0)
      && (r.atsBePlayPct.Some? ==> 0.0 <= r.atsBePlayPct.value <= 1.0)
  {
    ColumnsAreGrades(s);
    ScoreOfBrier(name, s.modelLine, BrierColumn(s), SeColumn(s), AtsColumn(s, false), AtsColumn(s, true), SuColumn(s));
    ScoreOfRates(name, s.modelLine, BrierColumn(s), SeColumn(s), AtsColumn(s, false), AtsColumn(s, true), SuColumn(s));
    ShareWithin(CountNa(AtsColumn(s, true)), |AtsColumn(s, false)|);
  }

  // -------------------------------------------------------------------
  // the object

  /** The column a series is graded into for one metric. */
  function MetricColumn(s: Series, m: Metric): (r: Column)
    requires s.Fits(|s.modelLine|)
    ensures |r| == |s.modelLine|
  {
    match m
    case HomeLine => s.modelLine
    case Brier => BrierColumn(s)
    case Se => SeColumn(s)
    case Ats => AtsColumn(s, false)
    case AtsBe => AtsColumn(s, true)
    case Su => SuColumn(s)
  }

  /** Assigning the columns of some metrics, one after another. */
  function AddColumns(df: Frame, name: string, s: Series, ms: seq<Metric>): Frame
    requires s.Fits(|s.modelLine|)
    decreases |ms|
  {
    if |ms| == 0 then df
    else
      var prev := AddColumns(df, name, s, ms[..|ms| - 1]);
      var m := ms[|ms| - 1];
      prev.(cols := prev.cols[Graded(name, m) := MetricColumn(s, m)])
  }

  /** Assigned columns hold the graded values; the rows and every other
      column are kept. */
  lemma {:induction false} AddColumnsShape(df: Frame, name: string, s: Series, ms: seq<Metric>)
    requires s.Fits(|s.modelLine|)
    ensures var r := AddColumns(df, name, s, ms);
      && r.gameId == df.gameId && r.season == df.season && r.week == df.week
      && (forall k :: k in r.cols <==> k in df.cols || KeyOf(k, name, ms))
      && (forall k :: k in df.cols && !KeyOf(k, name, ms) ==> r.cols[k] == df.cols[k])
      && (forall m :: m in ms ==> Graded(name, m) in r.cols && r.cols[Graded(name, m)] == MetricColumn(s, m))
      && (df.Valid() && |df.gameId| == |s.modelLine| ==> r.Valid())
    decreases |ms|
  {
    if |ms| > 0 {
      var init := ms[..|ms| - 1];
      AddColumnsShape(df, name, s, init);
      assert forall m :: m in ms <==> m in init || m == ms[|ms| - 1];
    }
  }

  /** Assigning the first k + 1 columns is assigning the first k, then
      column k. */
  lemma AddColumnsSnoc(df: Frame, name: string, s: Series, ms: seq<Metric>, k: nat)
    requires s.Fits(|s.modelLine|) && k < |ms|
    ensures AddColumns(df, name, s, ms[..k + 1])
         == AddColumns(df, name, s, ms[..k]).(cols := AddColumns(df, name, s, ms[..k]).cols[Graded(name, ms[k]) := MetricColumn(s, ms[k])])
  {
    assert ms[..k + 1][..k] == ms[..k];
  }

  /** The frame after the constructor: the columns added in its order
      (brier, line, se, ats and ats_be, su). */
  function WithGrades(df: Frame, name: string, s: Series): Frame
    requires s.Fits(|s.modelLine|)
  {
    AddColumns(df, name, s, AddOrder)
  }

  /** A graded frame keeps the rows and the input columns and gains exactly
      the six columns of the variant, holding its grades. */
  lemma WithGradesShape(df: Frame, name: string, s: Series)
    requires df.Valid() && s.Fits(|df.gameId|)
    ensures var r := WithGrades(df, name, s);
      && r.Valid() && r.gameId == df.gameId && r.season == df.season && r.week == df.week
      && (forall k :: k in r.cols <==> k in df.cols || GradedKey(k, name))
      && (forall k :: k in df.cols && !GradedKey(k, name) ==> r.cols[k] == df.cols[k])
      && HasGrades(r, name)
  {
    AddColumnsShape(df, name, s, AddOrder);
    EveryMetricInBothOrders();
  }

  /** Each of the six columns holds the series graded for its metric. */
  lemma WithGradesColumns(df: Frame, name: string, s: Series, m: Metric)
    requires df.Valid() && s.Fits(|df.gameId|)
    ensures Graded(name, m) in WithGrades(df, name, s).cols
    ensures WithGrades(df, name, s).cols[Graded(name, m)] == MetricColumn(s, m)
  {
    AddColumnsShape(df, name, s, AddOrder);
    EveryMetricInBothOrders();
  }

  /** The record read from a graded frame's columns is the record of the
      series. */
  lemma GradedRecord(df: Frame, name: string, s: Series)
    requires df.Valid() && s.Fits(|df.gameId|)
    ensures var r := WithGrades(df, name, s);
      && HasGrades(r, name)
      && |r.cols[Graded(name, AtsBe)]| == |r.cols[Graded(name, Ats)]|
      && ScoreOf(name, s.modelLine, r.cols[Graded(name, Brier)], r.cols[Graded(name, Se)],
                 r.cols[Graded(name, Ats)], r.cols[Graded(name, AtsBe)], r.cols[Graded(name, Su)])
         == RecordOf(name, s)
  {
    WithGradesShape(df, name, s);
    WithGradesColumns(df, name, s, Brier);
    WithGradesColumns(df, name, s, Se);
    WithGradesColumns(df, name, s, Ats);
    WithGradesColumns(df, name, s, AtsBe);
    WithGradesColumns(df, name, s, Su);
    var r := WithGrades(df, name, s);
    assert r.cols[Graded(name, Brier)] == BrierColumn(s) && r.cols[Graded(name, Se)] == SeColumn(s)
        && r.cols[Graded(name, Ats)] == AtsColumn(s, false) && r.cols[Graded(name, AtsBe)] == AtsColumn(s, true)
        && r.cols[Graded(name, Su)] == SuColumn(s);
  }

  class NfeloGraderModel {
    var df: Frame
    const modelName: string
    const series: Series
    var scoreRecord: ScoreRecord

    predicate Valid()
      reads this
    {
      df.Valid() && series.Fits(|df.gameId|)
    }

    /** __init__ after its column lookups (see SelectSeries): a private
        copy of the frame gains the variant's columns, then the record is
        generated from them. */
    constructor (frame: Frame, name: string, s: Series)
      requires frame.Valid() && s.Fits(|frame.gameId|)
      ensures Valid() && modelName == name && series == s
      ensures df == WithGrades(frame, name, s)
      ensures scoreRecord == RecordOf(name, s)
    {
      df := frame;
      modelName := name;
      series := s;
      new;
      AddGrades();
      GradedRecord(frame, name, s);
      scoreRecord := GenScoreRecord();
    }

    /** The add_* calls of __init__, in its order. */
    method AddGrades()
      requires Valid()
      modifies this`df
      ensures Valid() && df == AddColumns(old(df), modelName, series, AddOrder)
    {
      ghost var frame := df;
      AddBrier();
      AddColumnsSnoc(frame, modelName, series, AddOrder, 0);
      AddLine();
      AddColumnsSnoc(frame, modelName, series, AddOrder, 1);
      AddSe();
      AddColumnsSnoc(frame, modelName, series, AddOrder, 2);
      AddAts();
      AddColumnsSnoc(frame, modelName, series, AddOrder, 3);
      AddColumnsSnoc(frame, modelName, series, AddOrder, 4);
      AddSu();
      AddColumnsSnoc(frame, modelName, series, AddOrder, 5);
      assert AddOrder[..6] == AddOrder;
    }

    method AddBrier()
      requires Valid()
      modifies this`df
      ensures Valid() && df == old(df).(cols := old(df).cols[Graded(modelName, Brier) := BrierColumn(series)])
    {
      df := df.(cols := df.cols[Graded(modelName, Brier) := BrierColumn(series)]);
    }

    method AddLine()
      requires Valid()
      modifies this`df
      ensures Valid() && df == old(df).(cols := old(df).cols[Graded(modelName, HomeLine) := series.modelLine])
    {
      df := df.(cols := df.cols[Graded(modelName, HomeLine) := series.modelLine]);
    }

    method AddSe()
      requires Valid()
      modifies this`df
      ensures Valid() && df == old(df).(cols := old(df).cols[Graded(modelName, Se) := SeColumn(series)])
    {
      df := df.(cols := df.cols[Graded(modelName, Se) := SeColumn(series)]);
    }

    method AddAts()
      requires Valid()
      modifies this`df
      ensures Valid()
      ensures df == old(df).(cols := old(df).cols[Graded(modelName, Ats) := AtsColumn(series, false)]
                                                 [Graded(modelName, AtsBe) := AtsColumn(series, true)])
    {
      df := df.(cols := df.cols[Graded(modelName, Ats) := AtsColumn(series, false)]);
      df := df.(cols := df.cols[Graded(modelName, AtsBe) := AtsColumn(series, true)]);
    }

    method AddSu()
      requires Valid()
      modifies this`df
      ensures Valid() && df == old(df).(cols := old(df).cols[Graded(modelName, Su) := SuColumn(series)])
    {
      df := df.(cols := df.cols[Graded(modelName, Su) := SuColumn(series)]);
    }

    /** gen_score_record, read from the columns of the private frame. */
    function GenScoreRecord(): ScoreRecord
      reads this
      requires Valid() && HasGrades(df, modelName)
    {
      ScoreOf(modelName, series.modelLine, df.cols[Graded(modelName, Brier)], df.cols[Graded(modelName, Se)],
              df.cols[Graded(modelName, Ats)], df.cols[Graded(modelName, AtsBe)], df.cols[Graded(modelName, Su)])
    }

    /** merge_with. */
    function MergeWith(target: Frame): Frame
      reads this
      requires Valid() && HasGrades(df, modelName)
    {
      MergeInto(target, modelName, df)
    }
  }

  // -------------------------------------------------------------------
  // merge_with: a left join on game_id

  /** The first row whose key is `k`, if any. */
  function FindKey(keys: seq<string>, k: string): (r: Option<nat>)
    ensures r.Some? ==> r.value < |keys| && keys[r.value] == k
                        && forall j :: 0 <= j < r.value ==> keys[j] != k
    ensures r.None? <==> k !in keys
  {
    if |keys| == 0 then None
    else if keys[0] == k then Some(0)
    else
      var t := FindKey(keys[1..], k);
      if t.None? then None else Some(t.value + 1)
  }

  /** One right-hand column joined onto the left rows by key: each left
      row takes the value of the matching right row, NaN when none matches. */
  function JoinColumn(left: seq<string>, right: seq<string>, col: Column): (r: Column)
    requires |col| == |right|
    ensures |r| == |left|
    ensures forall i :: 0 <= i < |left| && left[i] !in right ==> r[i].None?
  {
    seq(|left|, i requires 0 <= i < |left| =>
      var j := FindKey(right, left[i]);
      if j.Some? then col[j.value] else None)
  }

  /** Joining a frame to another with the same distinct keys in the same
      order copies the column unchanged. */
  lemma JoinSameKeys(ids: seq<string>, col: Column)
    requires |col| == |ids| && Distinct(ids)
    ensures JoinColumn(ids, ids, col) == col
  {
    var r := JoinColumn(ids, ids, col);
    forall i | 0 <= i < |ids| ensures r[i] == col[i] {
      var j := FindKey(ids, ids[i]);
      assert ids[i] in ids;
      assert j.value == i;
    }
  }

  /** Joining the columns of some metrics, one after another. */
  function MergeColumns(target: Frame, name: string, graded: Frame, ms: seq<Metric>): Frame
    requires graded.Valid() && forall m :: m in ms ==> Graded(name, m) in graded.cols
    decreases |ms|
  {
    if |ms| == 0 then target
    else
      var init := ms[..|ms| - 1];
      var m := ms[|ms| - 1];
      var prev := MergeColumns(target, name, graded, init);
      prev.(cols := prev.cols[Graded(name, m) := JoinColumn(target.gameId, graded.gameId, graded.cols[Graded(name, m)])])
  }

  lemma {:induction false} MergeColumnsShape(target: Frame, name: string, graded: Frame, ms: seq<Metric>)
    requires graded.Valid() && forall m :: m in ms ==> Graded(name, m) in graded.cols
    ensures var r := MergeColumns(target, name, graded, ms);
      && r.gameId == target.gameId && r.season == target.season && r.week == target.week
      && (forall k :: k in r.cols <==> k in target.cols || KeyOf(k, name, ms))
      && (forall k :: k in target.cols && !KeyOf(k, name, ms) ==> r.cols[k] == target.cols[k])
      && (forall m :: m in ms ==> && Graded(name, m) in r.cols
                                  && r.cols[Graded(name, m)]
                                     == JoinColumn(target.gameId, graded.gameId, graded.cols[Graded(name, m)]))
      && (target.Valid() ==> r.Valid())
    decreases |ms|
  {
    if |ms| > 0 {
      var init := ms[..|ms| - 1];
      assert forall m :: m in ms <==> m in init || m == ms[|ms| - 1];
      MergeColumnsShape(target, name, graded, init);
    }
  }

  /** merge_with: a left join on game_id of the variant's six columns. */
  function MergeInto(target: Frame, name: string, graded: Frame): Frame
    requires graded.Valid() && HasGrades(graded, name)
  {
    EveryMetricInBothOrders();
    MergeColumns(target, name, graded, MergeOrder)
  }

  /** The target keeps its rows and columns and gains the six columns of
      the variant, each joined on game_id. */
  lemma MergeIntoShape(target: Frame, name: string, graded: Frame)
    requires graded.Valid() && HasGrades(graded, name)
    ensures var r := MergeInto(target, name, graded);
      && r.gameId == target.gameId && r.season == target.season && r.week == target.week
      && (forall k :: k in r.cols <==> k in target.cols || GradedKey(k, name))
      && (forall k :: k in target.cols && !GradedKey(k, name) ==> r.cols[k] == target.cols[k])
      && (forall m :: && Graded(name, m) in r.cols
                      && r.cols[Graded(name, m)] == JoinColumn(target.gameId, graded.gameId, graded.cols[Graded(name, m)]))
      && (target.Valid() ==> r.Valid())
  {
    EveryMetricInBothOrders();
    MergeColumnsShape(target, name, graded, MergeOrder);
  }

  /** Merged into a frame with the same distinct game ids, the six columns
      arrive unchanged. */
  lemma MergeSameGames(target: Frame, name: string, graded: Frame)
    requires graded.Valid() && HasGrades(graded, name)
    requires target.gameId == graded.gameId && Distinct(graded.gameId)
    ensures forall m :: && Graded(name, m) in MergeInto(target, name, graded).cols
                        && MergeInto(target, name, graded).cols[Graded(name, m)] == graded.cols[Graded(name, m)]
  {
    MergeIntoShape(target, name, graded);
    forall m | true ensures MergeInto(target, name, graded).cols[Graded(name, m)] == graded.cols[Graded(name, m)] {
      JoinSameKeys(graded.gameId, graded.cols[Graded(name, m)]);
    }
  }

}
