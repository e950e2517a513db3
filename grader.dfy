/** Grading every model variant (nfelo/Performance/NfeloGrader.py): the
    `models` table and the `grade_models` loop, which builds one score
    record per variant and merges each variant's graded columns into
    `graded_games`. */
module Grader {
  import opened Wrappers
  import opened Numerics
  import opened GraderModel

  /** The `models` table, in its insertion order: each variant's name and
      the columns it is graded from. */
  const Models: seq<(string, ModelSpec)> := [
    ("nfelo_unregressed", ModelSpec("nfelo_home_line_base", "home_line_close", "nfelo_home_probability_base", None, None)),
    ("nfelo_open", ModelSpec("nfelo_home_line_open", "home_line_open", "nfelo_home_probability_open",
                             Some("home_open_ev"), Some("away_open_ev"))),
    ("nfelo_close", ModelSpec("nfelo_home_line_close", "home_line_close", "nfelo_home_probability_close",
                              Some("home_close_ev"), Some("away_close_ev"))),
    ("market", ModelSpec("home_line_close", "home_line_close", "market_home_probability_close", None, None)),
    ("market_open", ModelSpec("home_line_open", "home_line_open", "market_home_probability_open", None, None)),
    ("538", ModelSpec("538_home_line_close", "home_line_close", "elo_prob1", None, None)),
    ("538_open", ModelSpec("538_home_line_close", "home_line_open", "elo_prob1", None, None)),
    ("qbelo", ModelSpec("qbelo_home_line_close", "home_line_close", "qbelo_prob1", None, None)),
    ("qbelo_open", ModelSpec("qbelo_home_line_close", "home_line_open", "qbelo_prob1", None, None))
  ]

  /** The variants' names, in table order. */
  function Names(table: seq<(string, ModelSpec)>): (r: seq<string>)
    ensures |r| == |table| && forall i :: 0 <= i < |table| ==> r[i] == table[i].0
  {
    seq(|table|, i requires 0 <= i < |table| => table[i].0)
  }

  /** Only nfelo_open and nfelo_close bring EV columns; the two market
      variants grade a line against itself; no name occurs twice; and the
      unregressed and closing nfelo variants come first and third. */
  lemma ModelsTable()
    ensures forall i :: 0 <= i < |Models| ==>
      (Models[i].1.homeEv.Some? <==> Models[i].0 == "nfelo_open" || Models[i].0 == "nfelo_close")
      && (Models[i].1.awayEv.Some? <==> Models[i].0 == "nfelo_open" || Models[i].0 == "nfelo_close")
    ensures forall i :: 0 <= i < |Models| ==>
      (Models[i].1.modelLine == Models[i].1.marketLine <==> Models[i].0 == "market" || Models[i].0 == "market_open")
    ensures Distinct(Names(Models))
    ensures Models[0].0 == "nfelo_unregressed" && Models[2].0 == "nfelo_close"
  {
  }

  /** graded_games at the start, `df[['game_id', 'season', 'week']]`: the
      same rows and no numeric column. */
  function StartGames(df: Frame): (r: Frame)
    ensures r.gameId == df.gameId && r.season == df.season && r.week == df.week && r.cols == map[]
    ensures df.Valid() ==> r.Valid()
  {
    Frame(df.gameId, df.season, df.week, map[])
  }

  /** The variants graded so far: each name with the series its columns
      were looked up into. */
  type Variants = seq<(string, Series)>

  /** Every variant's series has one entry per row of the frame. */
  predicate FitsFrame(df: Frame, vs: Variants) {
    forall i :: 0 <= i < |vs| ==> vs[i].1.Fits(|df.gameId|)
  }

  /** The lookups of grade_models over a table: each turn's series in
      table order, stopping at the first KeyError. */
  function Select(df: Frame, table: seq<(string, ModelSpec)>): (r: Result<Variants, Error>)
    requires df.Valid()
    ensures r.Ok? <==> forall i :: 0 <= i < |table| ==> HasColumns(df, table[i].1)
    ensures r.Ok? ==> |r.value| == |table| && FitsFrame(df, r.value)
                      && forall i :: 0 <= i < |table| ==>
                           r.value[i].0 == table[i].0 && SelectSeries(df, table[i].1) == Ok(r.value[i].1)
    decreases |table|
  {
    if |table| == 0 then Ok([])
    else
      var init := table[..|table| - 1];
      var last := table[|table| - 1];
      assert forall i :: 0 <= i < |init| ==> init[i] == table[i];
      var prev := Select(df, init);
      if prev.Err? then prev
      else
        var s := SelectSeries(df, last.1);
        if s.Err? then Err(s.error) else Ok(prev.value + [(last.0, s.value)])
  }

  /** graded_records after the variants: one record each, appended in
      order. */
  function Records(df: Frame, vs: Variants): (r: seq<ScoreRecord>)
    requires FitsFrame(df, vs)
    ensures |r| == |vs|
    decreases |vs|
  {
    if |vs| == 0 then []
    else
      var last := vs[|vs| - 1];
      Records(df, vs[..|vs| - 1]) + [RecordOf(last.0, last.1)]
  }

  /** graded_games after the variants: each variant's graded frame merged
      in order into the id columns. */
  function Games(df: Frame, vs: Variants): Frame
    requires df.Valid() && FitsFrame(df, vs)
    decreases |vs|
  {
    if |vs| == 0 then StartGames(df)
    else
      var last := vs[|vs| - 1];
      WithGradesShape(df, last.0, last.1);
      MergeInto(Games(df, vs[..|vs| - 1]), last.0, WithGrades(df, last.0, last.1))
  }

  /** Record i is the record of variant i, under that variant's name. */
  lemma {:induction false} RecordsShape(df: Frame, vs: Variants)
    requires FitsFrame(df, vs)
    ensures forall i :: 0 <= i < |vs| ==>
      Records(df, vs)[i] == RecordOf(vs[i].0, vs[i].1) && Records(df, vs)[i].modelName == vs[i].0
    decreases |vs|
  {
    if |vs| > 0 {
      var init := vs[..|vs| - 1];
      var last := vs[|vs| - 1];
      assert forall i :: 0 <= i < |init| ==> init[i] == vs[i];
      RecordsShape(df, init);
      var before := Records(df, init);
      var rec := RecordOf(last.0, last.1);
      assert Records(df, vs) == before + [rec];
      assert rec.modelName == last.0;
      forall i | 0 <= i < |vs|
        ensures Records(df, vs)[i] == RecordOf(vs[i].0, vs[i].1) && Records(df, vs)[i].modelName == vs[i].0
      {
        if i < |init| {
          assert Records(df, vs)[i] == before[i];
        }
      }
    }
  }

  /** graded_games keeps the input rows and holds exactly the graded
      columns of the variants. */
  lemma {:induction false} GamesShape(df: Frame, vs: Variants)
    requires df.Valid() && FitsFrame(df, vs)
    ensures var g := Games(df, vs);
      && g.Valid() && g.gameId == df.gameId && g.season == df.season && g.week == df.week
      && (forall k :: k in g.cols <==> k.Graded? && k.model in NamesOf(vs))
    decreases |vs|
  {
    if |vs| > 0 {
      var init := vs[..|vs| - 1];
      var last := vs[|vs| - 1];
      assert forall i :: 0 <= i < |init| ==> init[i] == vs[i];
      assert NamesOf(vs) == NamesOf(init) + [last.0];
      GamesShape(df, init);
      WithGradesShape(df, last.0, last.1);
      MergeIntoShape(Games(df, init), last.0, WithGrades(df, last.0, last.1));
    }
  }

  /** An all-NaN column has a NaN mean. */
  lemma {:induction false} NoGradesMeanNaN(c: Column)
    requires AllNaN(c)
    ensures CountNa(c) == 0 && MeanNa(c).None?
  {
    if |c| > 0 {
      var init := c[..|c| - 1];
      assert forall i :: 0 <= i < |init| ==> init[i] == c[i];
      NoGradesMeanNaN(init);
    }
  }

  /** The variants' names, in order. */
  function NamesOf(vs: Variants): (r: seq<string>)
    ensures |r| == |vs| && forall i :: 0 <= i < |vs| ==> r[i] == vs[i].0
  {
    seq(|vs|, i requires 0 <= i < |vs| => vs[i].0)
  }

  /** Where graded_games got a variant's graded column from: a join, on
      game_id, of that variant's own graded column, when no other variant
      has its name. */
  lemma {:induction false} GradedColumnInGames(df: Frame, vs: Variants, k: nat, m: Metric)
    requires df.Valid() && FitsFrame(df, vs) && k < |vs| && Distinct(NamesOf(vs))
    ensures Graded(vs[k].0, m) in Games(df, vs).cols
    ensures Games(df, vs).cols[Graded(vs[k].0, m)] == JoinColumn(df.gameId, df.gameId, MetricColumn(vs[k].1, m))
    decreases |vs|
  {
    if k == |vs| - 1 {
      GamesLast(df, vs, m);
    } else {
      var init := vs[..|vs| - 1];
      assert init[k] == vs[k];
      assert FitsFrame(df, init) by {
        forall i | 0 <= i < |init| ensures init[i] == vs[i] { }
      }
      assert Distinct(NamesOf(init)) by {
        forall i | 0 <= i < |init| ensures NamesOf(init)[i] == NamesOf(vs)[i] { }
      }
      GradedColumnInGames(df, init, k, m);
      assert vs[k].0 != vs[|vs| - 1].0 by {
        assert NamesOf(vs)[k] != NamesOf(vs)[|vs| - 1];
      }
      GamesKeep(df, vs, Graded(vs[k].0, m));
    }
  }

  /** The last variant's columns are joined from its own graded frame. */
  lemma GamesLast(df: Frame, vs: Variants, m: Metric)
    requires df.Valid() && FitsFrame(df, vs) && |vs| > 0
    ensures Graded(vs[|vs| - 1].0, m) in Games(df, vs).cols
    ensures Games(df, vs).cols[Graded(vs[|vs| - 1].0, m)]
         == JoinColumn(df.gameId, df.gameId, MetricColumn(vs[|vs| - 1].1, m))
  {
    var init := vs[..|vs| - 1];
    var last := vs[|vs| - 1];
    assert FitsFrame(df, init) by {
      forall i | 0 <= i < |init| ensures init[i] == vs[i] { }
    }
    WithGradesShape(df, last.0, last.1);
    WithGradesColumns(df, last.0, last.1, m);
    GamesShape(df, init);
    MergeIntoShape(Games(df, init), last.0, WithGrades(df, last.0, last.1));
  }

  /** A column of another name survives the last variant's merge. */
  lemma GamesKeep(df: Frame, vs: Variants, key: ColKey)
    requires df.Valid() && FitsFrame(df, vs) && |vs| > 0
    requires FitsFrame(df, vs[..|vs| - 1]) && key in Games(df, vs[..|vs| - 1]).cols
    requires !GradedKey(key, vs[|vs| - 1].0)
    ensures key in Games(df, vs).cols && Games(df, vs).cols[key] == Games(df, vs[..|vs| - 1]).cols[key]
  {
    var last := vs[|vs| - 1];
    WithGradesShape(df, last.0, last.1);
    MergeIntoShape(Games(df, vs[..|vs| - 1]), last.0, WithGrades(df, last.0, last.1));
  }

  /** With distinct game ids, a graded column of graded_games is exactly
      the variant's own graded column. */
  lemma GradedGamesCopyColumns(df: Frame, vs: Variants, k: nat, m: Metric)
    requires df.Valid() && FitsFrame(df, vs) && k < |vs| && Distinct(NamesOf(vs)) && Distinct(df.gameId)
    ensures Graded(vs[k].0, m) in Games(df, vs).cols
    ensures Games(df, vs).cols[Graded(vs[k].0, m)] == MetricColumn(vs[k].1, m)
  {
    GradedColumnInGames(df, vs, k, m);
    JoinSameKeys(df.gameId, MetricColumn(vs[k].1, m));
  }

  /** Every entry is NaN. */
  predicate AllNaN(c: Column) {
    forall i :: 0 <= i < |c| ==> c[i].None?
  }

  /** A variant graded against its own line never bets: its ATS columns in
      graded_games are all NaN. */
  lemma SelfGradedColumnsNaN(df: Frame, vs: Variants, k: nat, m: Metric)
    requires df.Valid() && FitsFrame(df, vs) && k < |vs| && Distinct(NamesOf(vs))
    requires vs[k].1.modelLine == vs[k].1.marketLine && m in {Ats, AtsBe}
    ensures Graded(vs[k].0, m) in Games(df, vs).cols && AllNaN(Games(df, vs).cols[Graded(vs[k].0, m)])
  {
    SelfGradedAtsIsNaN(vs[k].1);
    GradedColumnInGames(df, vs, k, m);
  }

  /** Nor does its record: its `ats` and `ats_be` rates are NaN. */
  lemma SelfGradedRecordNaN(df: Frame, vs: Variants, k: nat)
    requires FitsFrame(df, vs) && k < |vs| && vs[k].1.modelLine == vs[k].1.marketLine
    ensures Records(df, vs)[k].ats.None? && Records(df, vs)[k].atsBe.None?
  {
    var s := vs[k].1;
    RecordsShape(df, vs);
    SelfGradedAtsIsNaN(s);
    NoGradesMeanNaN(AtsColumn(s, false));
    NoGradesMeanNaN(AtsColumn(s, true));
  }

  /** The selected `market` and `market_open` variants grade the close and
      the open line against themselves. */
  lemma MarketVariantsSelfGraded(df: Frame, vs: Variants)
    requires df.Valid() && Select(df, Models) == Ok(vs)
    ensures |vs| == |Models| && FitsFrame(df, vs) && Distinct(NamesOf(vs))
    ensures vs[3].0 == "market" && vs[4].0 == "market_open"
    ensures vs[3].1.modelLine == vs[3].1.marketLine && vs[4].1.modelLine == vs[4].1.marketLine
  {
    ModelNamesDistinct();
    SelectKeepsNames(df, Models, vs);
    SelfGradedSelection(df, vs, 3);
    SelfGradedSelection(df, vs, 4);
  }

  lemma ModelNamesDistinct()
    ensures Distinct(Names(Models))
  {
    ModelsTable();
  }

  lemma SelectKeepsNames(df: Frame, table: seq<(string, ModelSpec)>, vs: Variants)
    requires df.Valid() && Select(df, table) == Ok(vs)
    ensures NamesOf(vs) == Names(table)
  {
  }

  lemma SelfGradedSelection(df: Frame, vs: Variants, k: nat)
    requires df.Valid() && Select(df, Models) == Ok(vs) && k < |Models|
    requires Models[k].1.modelLine == Models[k].1.marketLine
    ensures vs[k].1.modelLine == vs[k].1.marketLine
  {
  }

  /** The market variants never bet: when grading succeeds, every ATS and
      break-even ATS entry of `market` and `market_open` in graded_games is
      NaN, and so are those records' `ats` and `ats_be` rates. */
  lemma MarketVariantsNeverBet(df: Frame)
    requires df.Valid() && Select(df, Models).Ok?
    ensures var vs := Select(df, Models).value;
      && vs[3].0 == "market" && vs[4].0 == "market_open"
      && (forall k, m :: k in {3, 4} && m in {Ats, AtsBe} ==>
            Graded(vs[k].0, m) in Games(df, vs).cols && AllNaN(Games(df, vs).cols[Graded(vs[k].0, m)]))
      && (forall k :: k in {3, 4} ==> Records(df, vs)[k].ats.None? && Records(df, vs)[k].atsBe.None?)
  {
    var vs := Select(df, Models).value;
    MarketVariantsSelfGraded(df, vs);
    SelfGradedColumnsNaN(df, vs, 3, Ats);
    SelfGradedColumnsNaN(df, vs, 3, AtsBe);
    SelfGradedColumnsNaN(df, vs, 4, Ats);
    SelfGradedColumnsNaN(df, vs, 4, AtsBe);
    SelfGradedRecordNaN(df, vs, 3);
    SelfGradedRecordNaN(df, vs, 4);
  }

  /** Grading every model succeeds on a frame with all their columns, and
      then graded_games holds exactly the six graded columns of each
      variant of the table. */
  lemma GradeModelsColumns(df: Frame)
    requires df.Valid() && forall i :: 0 <= i < |Models| ==> HasColumns(df, Models[i].1)
    ensures Select(df, Models).Ok?
    ensures var vs := Select(df, Models).value;
      && NamesOf(vs) == Names(Models)
      && forall k :: k in Games(df, vs).cols <==> k.Graded? && k.model in Names(Models)
  {
    var vs := Select(df, Models).value;
    assert NamesOf(vs) == Names(Models);
    GamesShape(df, vs);
  }

  /** A successful turn extends the variants by one. */
  lemma SelectSnoc(df: Frame, table: seq<(string, ModelSpec)>, k: nat)
    requires df.Valid() && k < |table| && Select(df, table[..k]).Ok? && SelectSeries(df, table[k].1).Ok?
    ensures Select(df, table[..k + 1]) == Ok(Select(df, table[..k]).value + [(table[k].0, SelectSeries(df, table[k].1).value)])
  {
    assert table[..k + 1][..k] == table[..k];
  }

  /** One more variant appends its record and merges its graded frame. */
  lemma SnocShape(df: Frame, vs: Variants, v: (string, Series))
    requires df.Valid() && FitsFrame(df, vs) && v.1.Fits(|df.gameId|)
    ensures FitsFrame(df, vs + [v])
    ensures Records(df, vs + [v]) == Records(df, vs) + [RecordOf(v.0, v.1)]
    ensures WithGrades(df, v.0, v.1).Valid() && HasGrades(WithGrades(df, v.0, v.1), v.0)
    ensures Games(df, vs + [v]) == MergeInto(Games(df, vs), v.0, WithGrades(df, v.0, v.1))
  {
    assert (vs + [v])[..|vs|] == vs;
    WithGradesShape(df, v.0, v.1);
  }

  /** A failing turn fails the whole table with its KeyError. */
  lemma {:induction false} SelectStopsAt(df: Frame, table: seq<(string, ModelSpec)>, k: nat)
    requires df.Valid() && k < |table| && Select(df, table[..k]).Ok?
    requires SelectSeries(df, table[k].1).Err?
    ensures Select(df, table) == Err(SelectSeries(df, table[k].1).error)
    decreases |table|
  {
    if k == |table| - 1 {
      assert table[..|table| - 1] == table[..k];
    } else {
      var init := table[..|table| - 1];
      assert init[..k] == table[..k];
      SelectStopsAt(df, init, k);
    }
  }

  // -------------------------------------------------------------------
  // the object

  class NfeloGrader {
    const df: Frame
    var gradedGames: Frame
    var gradedRecords: seq<ScoreRecord>

    /** The fields __init__ sets before it calls grade_models: a copy of
        the frame, graded_games from its id columns, no records. */
    constructor Start(frame: Frame)
      requires frame.Valid()
      ensures df == frame && gradedGames == StartGames(frame) && gradedRecords == []
    {
      df := frame;
      gradedGames := StartGames(frame);
      gradedRecords := [];
    }

    /** grade_models: one NfeloGraderModel per table entry, in order, each
        record appended and each graded frame merged; a KeyError stops the
        loop after `done` variants. */
    method GradeModels() returns (err: Option<Error>, done: nat)
      requires df.Valid() && gradedGames == StartGames(df) && gradedRecords == []
      modifies this`gradedGames, this`gradedRecords
      ensures done <= |Models| && Select(df, Models[..done]).Ok?
      ensures gradedRecords == Records(df, Select(df, Models[..done]).value)
      ensures gradedGames == Games(df, Select(df, Models[..done]).value)
      ensures err.None? ==> done == |Models|
      ensures err.Some? ==> done < |Models| && SelectSeries(df, Models[done].1) == Err(err.value)
    {
      var i := 0;
      while i < |Models|
        invariant 0 <= i <= |Models| && Select(df, Models[..i]).Ok?
        invariant gradedRecords == Records(df, Select(df, Models[..i]).value)
        invariant gradedGames == Games(df, Select(df, Models[..i]).value)
      {
        var s := SelectSeries(df, Models[i].1);
        if s.Err? {
          return Some(s.error), i;
        }
        GradeNext(i, s.value);
        i := i + 1;
      }
      assert Models[..i] == Models;
      return None, i;
    }

    /** One turn of the loop, for a variant whose columns were found. */
    method GradeNext(i: nat, s: Series)
      requires df.Valid() && i < |Models| && SelectSeries(df, Models[i].1) == Ok(s)
      requires Select(df, Models[..i]).Ok?
      requires gradedRecords == Records(df, Select(df, Models[..i]).value)
      requires gradedGames == Games(df, Select(df, Models[..i]).value)
      modifies this`gradedGames, this`gradedRecords
      ensures Select(df, Models[..i + 1]) == Ok(Select(df, Models[..i]).value + [(Models[i].0, s)])
      ensures gradedRecords == Records(df, Select(df, Models[..i + 1]).value)
      ensures gradedGames == Games(df, Select(df, Models[..i + 1]).value)
    {
      ghost var vs := Select(df, Models[..i]).value;
      SelectSnoc(df, Models, i);
      var model := new NfeloGraderModel(df, Models[i].0, s);
      WithGradesShape(df, Models[i].0, s);
      SnocShape(df, vs, (Models[i].0, s));
      gradedRecords := gradedRecords + [model.scoreRecord];
      gradedGames := model.MergeWith(gradedGames);
    }
  }

  /** NfeloGrader(df): an NfeloGrader after grade_models, or the KeyError it
      raises. */
  method NewGrader(frame: Frame) returns (r: Result<NfeloGrader, Error>)
    requires frame.Valid()
    ensures r.Ok? <==> Select(frame, Models).Ok?
    ensures r.Ok? ==> fresh(r.value) && r.value.df == frame
                      && r.value.gradedRecords == Records(frame, Select(frame, Models).value)
                      && r.value.gradedGames == Games(frame, Select(frame, Models).value)
    ensures r.Err? ==> Select(frame, Models) == Err(r.error)
  {
    var g := new NfeloGrader.Start(frame);
    var err, done := g.GradeModels();
    if err.Some? {
      SelectStopsAt(frame, Models, done);
      r := Err(err.value);
    } else {
      assert Models[..done] == Models;
      r := Ok(g);
    }
  }
}
