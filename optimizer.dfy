/** The optimiser (nfelo/Optimizer/NfeloOptimizer.py, class
    `NfeloOptimizer`).  The search works on features scaled to [0, 1];
    each evaluation writes the denormalised values into the engine's
    configuration, reruns the engine, grades its output and turns one
    grade into a number to minimise.  The search itself (scipy's
    `minimize` or `basinhopping`) is not modelled: its solution arrives as
    a value. */
module Optimizer {
  import opened Wrappers
  import NR = NfeloRules
  import Model
  import GM = GraderModel
  import Grader
  import opened Numerics

  // -------------------------------------------------------------------
  // the feature table

  /** A tunable feature's best guess and allowed range.  A feature is
      named by the configuration key it sets. */
  datatype Feature = Feature(bg: real, lo: real, hi: real)

  /** `available_features[key]`: the best guess and range of each of the
      seventeen tunable keys, and a KeyError for the other three keys. */
  function FeatureInfo(key: NR.ConfigKey): (r: Result<Feature, Error>)
    ensures r.Ok? ==> Sane(key, r.value)
    ensures r.Err? ==> r == Err(KeyMissing(NR.KeyName(key)))
  {
    match key
    case KFactor => Ok(Feature(13.5, 5.0, 20.0))
    case ZScale => Ok(Feature(400.0, 200.0, 600.0))
    case LogBase => Ok(Feature(6.75, 3.0, 10.0))
    case Reversion => Ok(Feature(0.3, 0.15, 1.0))
    case DvoaWeight => Ok(Feature(0.35, 0.15, 0.5))
    case WtRatingsWeight => Ok(Feature(0.35, 0.15, 0.5))
    case MarginWeight => Ok(Feature(0.6, 0.1, 1.0))
    case PffWeight => Ok(Feature(0.22, 0.1, 1.0))
    case WepaWeight => Ok(Feature(0.18, 0.1, 1.0))
    case MarketResistFactor => Ok(Feature(2.5, 1.25, 10.0))
    case MarketRegressionWeight => Ok(Feature(0.8, 0.0, 0.9))
    case SeSpan => Ok(Feature(4.0, 2.0, 16.0))
    case RmseBase => Ok(Feature(3.5, 2.0, 10.0))
    case SpreadDeltaBase => Ok(Feature(1.5, 1.1, 5.0))
    case HookCertainty => Ok(Feature(-0.25, -0.5, 0.0))
    case LongLineInflator => Ok(Feature(0.25, 0.0, 0.75))
    case MinMr => Ok(Feature(0.0, 0.0, 0.5))
    case QbWeight => Err(KeyMissing(NR.KeyName(key)))
    case PlayoffBoost => Err(KeyMissing(NR.KeyName(key)))
    case NfeloSpan => Err(KeyMissing(NR.KeyName(key)))
  }

  /** The keys of `available_features`, in its order. */
  const FeatureKeys: seq<NR.ConfigKey> := [
    NR.KFactor, NR.ZScale, NR.LogBase, NR.Reversion, NR.DvoaWeight, NR.WtRatingsWeight,
    NR.MarginWeight, NR.PffWeight, NR.WepaWeight, NR.MarketResistFactor, NR.MarketRegressionWeight,
    NR.SeSpan, NR.RmseBase, NR.SpreadDeltaBase, NR.HookCertainty, NR.LongLineInflator, NR.MinMr
  ]

  /** The listed keys are exactly the tunable ones, each listed once. */
  lemma FeatureKeysTable(key: NR.ConfigKey)
    ensures key in FeatureKeys <==> FeatureInfo(key).Ok?
    ensures Distinct(FeatureKeys)
  {
    FeatureKeysPositions();
    if FeatureInfo(key).Ok? {
      assert FeatureKeys[Position(key)] == key;
    }
  }

  /** Each listed key sits at its position and is tunable. */
  lemma FeatureKeysPositions()
    ensures forall i :: 0 <= i < |FeatureKeys| ==> Position(FeatureKeys[i]) == i && FeatureInfo(FeatureKeys[i]).Ok?
  {
  }

  /** The key's position in FeatureKeys; past its end for a key that is
      not tunable. */
  function Position(key: NR.ConfigKey): nat {
    match key
    case KFactor => 0
    case ZScale => 1
    case LogBase => 2
    case Reversion => 3
    case DvoaWeight => 4
    case WtRatingsWeight => 5
    case MarginWeight => 6
    case PffWeight => 7
    case WepaWeight => 8
    case MarketResistFactor => 9
    case MarketRegressionWeight => 10
    case SeSpan => 11
    case RmseBase => 12
    case SpreadDeltaBase => 13
    case HookCertainty => 14
    case LongLineInflator => 15
    case MinMr => 16
    case _ => 17
  }

  /** A non-empty range that holds the best guess and whose lower end
      keeps every value of the range usable for the key. */
  predicate Sane(key: NR.ConfigKey, f: Feature) {
    f.lo < f.hi && f.lo <= f.bg <= f.hi && SafeFloor(key, f.lo)
  }

  /** A lower bound above which every value is usable for the key. */
  predicate SafeFloor(key: NR.ConfigKey, lo: real) {
    match key
    case SpreadDeltaBase => lo >= 0.0
    case RmseBase => lo > 0.0
    case LogBase => lo > 1.0
    case NfeloSpan => lo > -1.0
    case SeSpan => lo > -1.0
    case _ => true
  }

  /** A value the engine can use for that key: the engine divides by
      `rmse_base`, takes logarithms to base `b`, takes square roots of
      `spread_delta_base` and divides by one plus each span. */
  predicate Usable(key: NR.ConfigKey, v: real) {
    match key
    case SpreadDeltaBase => v >= 0.0
    case RmseBase => v != 0.0
    case LogBase => v > 0.0 && v != 1.0
    case NfeloSpan => v != -1.0
    case SeSpan => v != -1.0
    case _ => true
  }


  /** Every value inside a sane feature's range is usable, so a search
      that stays in bounds never hands the engine a value it cannot run. */
  lemma RangesUsable(key: NR.ConfigKey, f: Feature, v: real)
    requires Sane(key, f) && f.lo <= v <= f.hi
    ensures Usable(key, v)
  {
  }

  // -------------------------------------------------------------------
  // normalisation

  /** normalize_value's arithmetic: where `v` lies in [lo, hi], as a share
      of the range. */
  function Normalized(f: Feature, v: real): real
    requires f.lo != f.hi
  {
    (v - f.lo) / (f.hi - f.lo)
  }

  /** denormalize_value's arithmetic. */
  function Denormalized(f: Feature, u: real): real {
    u * (f.hi - f.lo) + f.lo
  }

  /** normalize_value: a KeyError for a key without a range, a
      ZeroDivisionError for an empty range. */
  function NormalizeValue(v: real, key: NR.ConfigKey): (r: Result<real, Error>)
    ensures r.Ok? <==> FeatureInfo(key).Ok?
    ensures r.Ok? ==> r.value == Normalized(FeatureInfo(key).value, v)
  {
    match FeatureInfo(key)
    case Err(e) => Err(e)
    case Ok(f) => if f.hi - f.lo == 0.0 then Err(ZeroDivision) else Ok(Normalized(f, v))
  }

  /** denormalize_value. */
  function DenormalizeValue(u: real, key: NR.ConfigKey): (r: Result<real, Error>)
    ensures r.Ok? <==> FeatureInfo(key).Ok?
    ensures r.Ok? ==> r.value == Denormalized(FeatureInfo(key).value, u)
  {
    match FeatureInfo(key)
    case Err(e) => Err(e)
    case Ok(f) => Ok(Denormalized(f, u))
  }

  /** Denormalising undoes normalising ... */
  lemma DenormalizeNormalize(f: Feature, v: real)
    requires f.lo != f.hi
    ensures Denormalized(f, Normalized(f, v)) == v
  {
    var d := f.hi - f.lo;
    assert (v - f.lo) / d * d == v - f.lo;
  }

  /** ... and normalising undoes denormalising. */
  lemma NormalizeDenormalize(f: Feature, u: real)
    requires f.lo != f.hi
    ensures Normalized(f, Denormalized(f, u)) == u
  {
    var d := f.hi - f.lo;
    assert (u * d + f.lo - f.lo) / d == u * d / d;
  }

  /** The same two round trips through the lookups: for every tunable key
      and every value. */
  lemma NamedRoundTrips(key: NR.ConfigKey, v: real)
    requires FeatureInfo(key).Ok?
    ensures NormalizeValue(v, key).Ok? && DenormalizeValue(NormalizeValue(v, key).value, key) == Ok(v)
    ensures DenormalizeValue(v, key).Ok? && NormalizeValue(DenormalizeValue(v, key).value, key) == Ok(v)
  {
    var f := FeatureInfo(key).value;
    DenormalizeNormalize(f, v);
    NormalizeDenormalize(f, v);
  }

  /** A value lies in the feature's range exactly when its normalised value
      lies in [0, 1]. */
  lemma NormalizedInUnit(f: Feature, v: real)
    requires f.lo < f.hi
    ensures f.lo <= v <= f.hi <==> 0.0 <= Normalized(f, v) <= 1.0
  {
    var d := f.hi - f.lo;
    var u := Normalized(f, v);
    assert u * d == v - f.lo;
    if 0.0 <= u <= 1.0 {
      MulKeepsLe(d, 0.0, u);
      MulKeepsLe(d, u, 1.0);
    }
    if f.lo <= v <= f.hi {
      MulSign(-u, d);
      MulSign(u - 1.0, d);
    }
  }

  /** A point of [0, 1] denormalises into the feature's range. */
  lemma DenormalizedInRange(f: Feature, u: real)
    requires f.lo < f.hi && 0.0 <= u <= 1.0
    ensures f.lo <= Denormalized(f, u) <= f.hi
  {
    var d := f.hi - f.lo;
    MulMonotone(u, d, 1.0);
    MulMonotone(0.0, d, u);
    assert 0.0 <= u * d <= d;
  }

  // -------------------------------------------------------------------
  // best guesses and the parameter update

  /** Every feature has a range. */
  predicate Known(features: seq<NR.ConfigKey>) {
    forall i :: 0 <= i < |features| ==> FeatureInfo(features[i]).Ok?
  }

  /** gen_best_guesses: each feature's best guess, normalised, in feature
      order; the first feature without a range raises a KeyError. */
  method GenBestGuesses(features: seq<NR.ConfigKey>) returns (r: Result<seq<real>, Error>)
    ensures r.Ok? <==> Known(features)
    ensures r.Ok? ==>
      && |r.value| == |features|
      && forall i :: 0 <= i < |features| ==>
           r.value[i] == Normalized(FeatureInfo(features[i]).value, FeatureInfo(features[i]).value.bg)
           && 0.0 <= r.value[i] <= 1.0
    ensures r.Err? ==>
      exists k :: 0 <= k < |features| && FeatureInfo(features[k]).Err? && r == Err(KeyMissing(NR.KeyName(features[k])))
  {
    var guesses: seq<real> := [];
    for i := 0 to |features|
      invariant |guesses| == i && Known(features[..i])
      invariant forall j :: 0 <= j < i ==>
        guesses[j] == Normalized(FeatureInfo(features[j]).value, FeatureInfo(features[j]).value.bg)
        && 0.0 <= guesses[j] <= 1.0
    {
      var info := FeatureInfo(features[i]);
      if info.Err? {
        assert !Known(features);
        return Err(info.error);
      }
      var f := info.value;
      NormalizedInUnit(f, f.bg);
      assert features[..i + 1] == features[..i] + [features[i]];
      guesses := guesses + [Normalized(f, f.bg)];
    }
    assert features[..|features|] == features;
    r := Ok(guesses);
  }

  /** The `updates` dictionary update_params builds from a point: each
      feature mapped to its denormalised coordinate, a later entry of the
      same feature overwriting an earlier one. */
  function UpdatesOf(features: seq<NR.ConfigKey>, x: seq<real>): (u: map<NR.ConfigKey, real>)
    requires |x| == |features| && Known(features)
    decreases |x|
  {
    if |x| == 0 then map[]
    else
      var n := |x| - 1;
      assert Known(features[..n]);
      UpdatesOf(features[..n], x[..n])[features[n] := Denormalized(FeatureInfo(features[n]).value, x[n])]
  }

  /** A point inside the bounds. */
  predicate InUnitBox(x: seq<real>) {
    forall i :: 0 <= i < |x| ==> 0.0 <= x[i] <= 1.0
  }

  /** Every value of the updates of a point inside the bounds is usable. */
  lemma {:induction false} UpdatesUsable(features: seq<NR.ConfigKey>, x: seq<real>)
    requires |x| == |features| && Known(features) && InUnitBox(x)
    ensures forall key :: key in UpdatesOf(features, x) ==> Usable(key, UpdatesOf(features, x)[key])
    decreases |x|
  {
    if |x| > 0 {
      var n := |x| - 1;
      var f := FeatureInfo(features[n]).value;
      assert Known(features[..n]) && InUnitBox(x[..n]);
      UpdatesUsable(features[..n], x[..n]);
      DenormalizedInRange(f, x[n]);
      RangesUsable(features[n], f, Denormalized(f, x[n]));
    }
  }

  /** Merging the updates of a point inside the bounds into a valid
      configuration leaves it valid, and keeps its spans usable when they
      were. */
  lemma UpdatesKeepValid(p: NR.Params, features: seq<NR.ConfigKey>, x: seq<real>)
    requires NR.ValidParams(p) && |x| == |features| && Known(features) && InUnitBox(x)
    ensures NR.ValidParams(NR.Merge(p, UpdatesOf(features, x)))
    ensures NR.SpansUsable(p) ==> NR.SpansUsable(NR.Merge(p, UpdatesOf(features, x)))
  {
    var u := UpdatesOf(features, x);
    var q := NR.Merge(p, u);
    UpdatesUsable(features, x);
    forall key | key == NR.SpreadDeltaBase || key == NR.RmseBase || key == NR.LogBase
                 || (NR.SpansUsable(p) && (key == NR.NfeloSpan || key == NR.SeSpan))
      ensures Usable(key, NR.Get(q, key))
    {
      NR.MergeGet(p, u, key);
    }
    assert Usable(NR.SpreadDeltaBase, NR.Get(q, NR.SpreadDeltaBase));
    assert Usable(NR.RmseBase, NR.Get(q, NR.RmseBase));
    assert Usable(NR.LogBase, NR.Get(q, NR.LogBase));
    if NR.SpansUsable(p) {
      assert Usable(NR.NfeloSpan, NR.Get(q, NR.NfeloSpan));
      assert Usable(NR.SeSpan, NR.Get(q, NR.SeSpan));
    }
  }

  /** A feature's last occurrence in the list sets its key to its
      denormalised coordinate. */
  lemma {:induction false} UpdatesSet(features: seq<NR.ConfigKey>, x: seq<real>, i: nat)
    requires |x| == |features| && Known(features) && i < |x|
    requires forall j :: i < j < |x| ==> features[j] != features[i]
    ensures features[i] in UpdatesOf(features, x)
    ensures UpdatesOf(features, x)[features[i]] == Denormalized(FeatureInfo(features[i]).value, x[i])
    decreases |x|
  {
    var n := |x| - 1;
    if i < n {
      assert Known(features[..n]);
      UpdatesSet(features[..n], x[..n], i);
    }
  }

  /** A key no listed feature sets is not among the updates. */
  lemma {:induction false} UpdatesOnlyListed(features: seq<NR.ConfigKey>, x: seq<real>, key: NR.ConfigKey)
    requires |x| == |features| && Known(features) && key !in features
    ensures key !in UpdatesOf(features, x)
    decreases |x|
  {
    if |x| > 0 {
      var n := |x| - 1;
      assert Known(features[..n]);
      assert key !in features[..n];
      UpdatesOnlyListed(features[..n], x[..n], key);
    }
  }

  /** After update_params: a listed feature's key holds the denormalised
      coordinate of its last occurrence; every other key is unchanged. */
  lemma UpdatedConfig(p: NR.Params, features: seq<NR.ConfigKey>, x: seq<real>, key: NR.ConfigKey)
    requires |x| == |features| && Known(features)
    ensures key !in features ==> NR.Get(NR.Merge(p, UpdatesOf(features, x)), key) == NR.Get(p, key)
    ensures forall i :: 0 <= i < |x| && features[i] == key && (forall j :: i < j < |x| ==> features[j] != key)
              ==> NR.Get(NR.Merge(p, UpdatesOf(features, x)), key)
                  == Denormalized(FeatureInfo(features[i]).value, x[i])
  {
    NR.MergeGet(p, UpdatesOf(features, x), key);
    if key !in features {
      UpdatesOnlyListed(features, x, key);
    }
    forall i | 0 <= i < |x| && features[i] == key && (forall j :: i < j < |x| ==> features[j] != key)
      ensures NR.Get(NR.Merge(p, UpdatesOf(features, x)), key) == Denormalized(FeatureInfo(features[i]).value, x[i])
    {
      UpdatesSet(features, x, i);
    }
  }

  // -------------------------------------------------------------------
  // the objectives and the graded records

  /** The entries of a score record the optimiser reads. */
  datatype RecordMetric =
    | Brier | BrierPerGame | BrierAdj | BrierAtsAdj | Su | Ats | AtsBe | AtsBePlayPct | MarketCorrel | Se

  /** An objective: the variant graded, the metric read, its scale and its
      direction. */
  datatype ObjectiveSpec = ObjectiveSpec(model: string, metric: RecordMetric, scale: real, direction: string)

  /** `available_obj_functions`, in its order. */
  const Objectives: seq<(string, ObjectiveSpec)> := [
    ("nfelo_brier", ObjectiveSpec("nfelo_unregressed", Brier, 10000.0, "pos")),
    ("nfelo_brier_adj", ObjectiveSpec("nfelo_unregressed", BrierAdj, 10000.0, "pos")),
    ("nfelo_brier_close", ObjectiveSpec("nfelo_close", BrierAdj, 10000.0, "pos")),
    ("nfelo_brier_close_ats", ObjectiveSpec("nfelo_close", AtsBe, 0.10, "pos"))
  ]

  /** The first entry of `os` with that name, or a KeyError. */
  function FindObjective(os: seq<(string, ObjectiveSpec)>, name: string): (r: Result<ObjectiveSpec, Error>)
    ensures r.Ok? ==> (name, r.value) in os
    ensures r.Err? ==> r == Err(KeyMissing(name)) && forall o :: o in os ==> o.0 != name
  {
    if |os| == 0 then Err(KeyMissing(name))
    else if os[0].0 == name then Ok(os[0].1)
    else FindObjective(os[1..], name)
  }

  /** Every objective is positive with a positive scale, and grades one of
      the two nfelo variants. */
  predicate Positive(spec: ObjectiveSpec) {
    spec.direction == "pos" && spec.scale > 0.0 && (spec.model == "nfelo_unregressed" || spec.model == "nfelo_close")
  }

  /** Every objective minimises the negated metric of an nfelo variant. */
  lemma ObjectiveTable()
    ensures forall o :: o in Objectives ==> Positive(o.1)
  {
  }

  /** `available_obj_functions[name]`: for a known name, a positive
      objective of the table. */
  function ObjectiveInfo(name: string): (r: Result<ObjectiveSpec, Error>)
    ensures r.Ok? ==> (name, r.value) in Objectives && Positive(r.value)
    ensures r.Err? ==> r == Err(KeyMissing(name)) && forall o :: o in Objectives ==> o.0 != name
  {
    ObjectiveTable();
    FindObjective(Objectives, name)
  }

  /** The helpers that compute the record entries this model leaves
      abstract: `market_correl` (a pandas correlation of the model line
      and the market line), `adj_brier` and `ats_adj_brier`. */
  datatype Helpers = Helpers(
    correl: (GM.Column, GM.Column) -> Option<real>,
    adjBrier: (real, Option<real>) -> Option<real>,
    atsAdjBrier: (real, Option<real>, Option<real>) -> Option<real>)

  /** A row of graded_records: the modelled score record and the three
      entries the helpers compute. */
  datatype GradedRow = GradedRow(record: GM.ScoreRecord, marketCorrel: Option<real>,
                                 brierAdj: Option<real>, brierAtsAdj: Option<real>)

  /** gen_score_record's helper entries for a variant's series: the
      correlation of its model and market lines, the Brier total adjusted
      by that correlation, and the Brier total adjusted by the break-even
      grade and play share. */
  function Complete(h: Helpers, s: GM.Series, rec: GM.ScoreRecord): (r: GradedRow)
    ensures r.record == rec
  {
    var c := h.correl(s.modelLine, s.marketLine);
    GradedRow(rec, c, h.adjBrier(rec.brier, c), h.atsAdjBrier(rec.brier, rec.atsBe, rec.atsBePlayPct))
  }

  /** gen_score_record's rows for a graded frame: record i with the helper
      entries of variant i. */
  function Completed(records: seq<GM.ScoreRecord>, vs: Grader.Variants, h: Helpers): (r: seq<GradedRow>)
    requires |records| == |vs|
    ensures |r| == |vs| && forall i :: 0 <= i < |vs| ==> r[i].record == records[i]
  {
    seq(|vs|, i requires 0 <= i < |vs| => Complete(h, vs[i].1, records[i]))
  }

  /** `rec[metric_name]`; `None` is a NaN. */
  function MetricValue(row: GradedRow, m: RecordMetric): Option<real> {
    match m
    case Brier => Some(row.record.brier)
    case BrierPerGame => row.record.brierPerGame
    case BrierAdj => row.brierAdj
    case BrierAtsAdj => row.brierAtsAdj
    case Su => row.record.su
    case Ats => row.record.ats
    case AtsBe => row.record.atsBe
    case AtsBePlayPct => row.record.atsBePlayPct
    case MarketCorrel => row.marketCorrel
    case Se => row.record.se
  }

  /** What metric_extraction returns: the metric of the last row whose
      model_name matches, or None (the outer `None`) when no row does. */
  function LastMetric(rows: seq<GradedRow>, model: string, m: RecordMetric): Option<Option<real>>
    decreases |rows|
  {
    if |rows| == 0 then None
    else if rows[|rows| - 1].record.modelName == model then Some(MetricValue(rows[|rows| - 1], m))
    else LastMetric(rows[..|rows| - 1], model, m)
  }

  /** metric_extraction finds nothing exactly when no row matches. */
  lemma {:induction false} LastMetricNone(rows: seq<GradedRow>, model: string, m: RecordMetric)
    ensures LastMetric(rows, model, m).None? <==> forall i :: 0 <= i < |rows| ==> rows[i].record.modelName != model
    decreases |rows|
  {
    if |rows| > 0 {
      var n := |rows| - 1;
      var init := rows[..n];
      assert forall i :: 0 <= i < n ==> init[i] == rows[i];
      if rows[n].record.modelName != model {
        LastMetricNone(init, model, m);
      }
    }
  }

  /** The metric found is that of the last row of the model. */
  lemma {:induction false} LastMetricOfLast(rows: seq<GradedRow>, model: string, m: RecordMetric, i: nat)
    requires i < |rows| && rows[i].record.modelName == model
    requires forall j :: i < j < |rows| ==> rows[j].record.modelName != model
    ensures LastMetric(rows, model, m) == Some(MetricValue(rows[i], m))
    decreases |rows|
  {
    var n := |rows| - 1;
    if i < n {
      var init := rows[..n];
      assert rows[n].record.modelName != model;
      assert forall j :: i < j < |init| ==> init[j] == rows[j];
      LastMetricOfLast(init, model, m, i);
    }
  }

  /** metric_extraction finds nothing exactly when no row matches, and
      otherwise the metric of the last matching row. */
  lemma LastMetricMeaning(rows: seq<GradedRow>, model: string, m: RecordMetric)
    ensures LastMetric(rows, model, m).None? <==> forall i :: 0 <= i < |rows| ==> rows[i].record.modelName != model
    ensures forall i :: 0 <= i < |rows| && rows[i].record.modelName == model
                        && (forall j :: i < j < |rows| ==> rows[j].record.modelName != model)
              ==> LastMetric(rows, model, m) == Some(MetricValue(rows[i], m))
  {
    LastMetricNone(rows, model, m);
    forall i | 0 <= i < |rows| && rows[i].record.modelName == model
               && (forall j :: i < j < |rows| ==> rows[j].record.modelName != model)
      ensures LastMetric(rows, model, m) == Some(MetricValue(rows[i], m))
    {
      LastMetricOfLast(rows, model, m, i);
    }
  }

  /** metric_extraction: scan every row, keeping the metric of each row
      of the model. */
  method MetricExtraction(rows: seq<GradedRow>, model: string, m: RecordMetric) returns (grade: Option<Option<real>>)
    ensures grade == LastMetric(rows, model, m)
  {
    grade := None;
    for i := 0 to |rows|
      invariant grade == LastMetric(rows[..i], model, m)
    {
      assert rows[..i + 1][..i] == rows[..i];
      if rows[i].record.modelName == model {
        grade := Some(MetricValue(rows[i], m));
      }
    }
    assert rows[..|rows|] == rows;
  }

  /** parse_grade's transform: a missing grade is a TypeError, a NaN stays
      NaN, a number is divided by the scale and negated for a positive
      objective. */
  function ParseGrade(spec: ObjectiveSpec, grade: Option<Option<real>>): (r: Result<Option<real>, Error>)
    requires spec.scale != 0.0
    ensures r.Err? <==> grade.None?
    ensures r.Ok? ==> (r.value.None? <==> grade.value.None?)
  {
    match grade
    case None => Err(NoneOperand)
    case Some(None) => Ok(None)
    case Some(Some(g)) =>
      var v := g / spec.scale;
      Ok(Some(if spec.direction == "pos" then -v else v))
  }

  /** revert_obj. */
  function RevertObj(spec: ObjectiveSpec, minimized: real): real {
    var g := minimized * spec.scale;
    if spec.direction == "pos" then -g else g
  }

  /** revert_obj undoes parse_grade ... */
  lemma RevertUndoesParse(spec: ObjectiveSpec, g: real)
    requires spec.scale != 0.0
    ensures ParseGrade(spec, Some(Some(g))).Ok?
    ensures RevertObj(spec, ParseGrade(spec, Some(Some(g))).value.value) == g
  {
    assert g / spec.scale * spec.scale == g;
  }

  /** ... and parse_grade undoes revert_obj. */
  lemma ParseUndoesRevert(spec: ObjectiveSpec, y: real)
    requires spec.scale != 0.0
    ensures ParseGrade(spec, Some(Some(RevertObj(spec, y)))) == Ok(Some(y))
  {
    var g := y * spec.scale;
    assert g / spec.scale == y;
    if spec.direction == "pos" {
      assert RevertObj(spec, y) == -g;
      assert (-g) / spec.scale == -y;
    } else {
      assert RevertObj(spec, y) == g;
    }
  }

  /** For every objective a larger metric gives a smaller objective, so
      minimising the objective maximises the metric. */
  lemma MinimisingMaximises(name: string, a: real, b: real)
    requires ObjectiveInfo(name).Ok? && a < b
    ensures var spec := ObjectiveInfo(name).value;
            ParseGrade(spec, Some(Some(b))).value.value < ParseGrade(spec, Some(Some(a))).value.value
  {
    var spec := ObjectiveInfo(name).value;
    assert a / spec.scale < b / spec.scale;
  }

  /** The graded_records of a grader built from a run's output. */
  function GradeRun(toFrame: seq<NR.GameRow> -> GM.Frame, h: Helpers, run: Result<seq<NR.GameRow>, Error>)
    : (r: Result<seq<GradedRow>, Error>)
    requires forall rows :: toFrame(rows).Valid()
  {
    match run
    case Err(e) => Err(e)
    case Ok(rows) =>
      var frame := toFrame(rows);
      var vs := Grader.Select(frame, Grader.Models);
      if vs.Err? then Err(vs.error) else Ok(Completed(Grader.Records(frame, vs.value), vs.value, h))
  }

  /** A successful grading has one row per variant of the models table,
      under that variant's name. */
  lemma GradeRunRows(toFrame: seq<NR.GameRow> -> GM.Frame, h: Helpers, run: Result<seq<NR.GameRow>, Error>)
    requires forall rows :: toFrame(rows).Valid()
    ensures GradeRun(toFrame, h, run).Ok? ==> NamedLikeModels(GradeRun(toFrame, h, run).value)
  {
    if run.Ok? {
      var frame := toFrame(run.value);
      var vs := Grader.Select(frame, Grader.Models);
      if vs.Ok? {
        Grader.RecordsShape(frame, vs.value);
      }
    }
  }

  /** obj_func's value for a run: grade the output, extract the
      objective's metric and transform it. */
  function Evaluation(spec: ObjectiveSpec, graded: Result<seq<GradedRow>, Error>): (r: Result<Option<real>, Error>)
    requires spec.scale != 0.0
  {
    match graded
    case Err(e) => Err(e)
    case Ok(rows) => ParseGrade(spec, LastMetric(rows, spec.model, spec.metric))
  }

  /** Rows named like the models table. */
  predicate NamedLikeModels(rows: seq<GradedRow>) {
    |rows| == |Grader.Models| && forall i :: 0 <= i < |rows| ==> rows[i].record.modelName == Grader.Models[i].0
  }

  /** In such rows no later row repeats a row's name. */
  lemma NamedOnce(rows: seq<GradedRow>, i: nat)
    requires NamedLikeModels(rows) && i < |rows|
    ensures forall j :: i < j < |rows| ==> rows[j].record.modelName != rows[i].record.modelName
  {
    var names := Grader.Names(Grader.Models);
    Grader.ModelsTable();
    forall j | i < j < |rows|
      ensures rows[j].record.modelName != rows[i].record.modelName
    {
      assert names[j] == rows[j].record.modelName && names[i] == rows[i].record.modelName;
    }
  }

  /** In rows named like the models table, each objective's variant is
      named once, so metric_extraction finds that variant's metric and
      the objective is never a missing grade. */
  lemma ObjectiveFound(name: string, rows: seq<GradedRow>)
    requires ObjectiveInfo(name).Ok? && NamedLikeModels(rows)
    ensures var spec := ObjectiveInfo(name).value;
            exists i :: 0 <= i < |rows| && rows[i].record.modelName == spec.model
              && LastMetric(rows, spec.model, spec.metric) == Some(MetricValue(rows[i], spec.metric))
  {
    var spec := ObjectiveInfo(name).value;
    LastMetricMeaning(rows, spec.model, spec.metric);
    Grader.ModelsTable();
    if spec.model == "nfelo_unregressed" {
      NamedOnce(rows, 0);
    } else {
      NamedOnce(rows, 2);
    }
  }

  /** Once its run and grading succeed, every objective yields a value. */
  lemma EvaluationDefined(name: string, toFrame: seq<NR.GameRow> -> GM.Frame, h: Helpers,
                          run: Result<seq<NR.GameRow>, Error>)
    requires ObjectiveInfo(name).Ok? && forall rows :: toFrame(rows).Valid()
    requires GradeRun(toFrame, h, run).Ok?
    ensures ObjectiveInfo(name).value.scale != 0.0
    ensures Evaluation(ObjectiveInfo(name).value, GradeRun(toFrame, h, run)).Ok?
  {
    GradeRunRows(toFrame, h, run);
    ObjectiveFound(name, GradeRun(toFrame, h, run).value);
  }

  /** graded_records from a run's output: build an NfeloGrader and complete its
      records with the helper entries. */
  method GradeOutput(rows: seq<NR.GameRow>, toFrame: seq<NR.GameRow> -> GM.Frame, h: Helpers)
    returns (r: Result<seq<GradedRow>, Error>)
    requires forall rows :: toFrame(rows).Valid()
    ensures r == GradeRun(toFrame, h, Ok(rows))
  {
    var frame := toFrame(rows);
    var grader := Grader.NewGrader(frame);
    if grader.Err? {
      return Err(grader.error);
    }
    var vs := Grader.Select(frame, Grader.Models).value;
    r := Ok(Completed(grader.value.gradedRecords, vs, h));
  }

  // -------------------------------------------------------------------
  // the optimiser object

  /** What the search returns: the point found, the objective there and
      the number of iterations. */
  datatype Solution = Solution(x: seq<real>, fun: real, nit: int)

  /** A value of opti_rec. */
  datatype Entry = Label(s: string) | Number(v: real) | Count(n: int) | Grade(g: Option<Option<real>>)

  /** The denormalised coordinates of a point, in feature order. */
  function Denormalised(features: seq<NR.ConfigKey>, x: seq<real>): (r: seq<real>)
    requires |x| == |features| && Known(features)
    ensures |r| == |x| && forall i :: 0 <= i < |x| ==> r[i] == Denormalized(FeatureInfo(features[i]).value, x[i])
  {
    seq(|x|, i requires 0 <= i < |x| => Denormalized(FeatureInfo(features[i]).value, x[i]))
  }

  /** The performance entries of opti_rec. */
  function Performance(rows: seq<GradedRow>, model: string): map<string, Entry> {
    map[
      "brier" := Grade(LastMetric(rows, model, Brier)),
      "brier_per_game" := Grade(LastMetric(rows, model, BrierPerGame)),
      "brier_adj" := Grade(LastMetric(rows, model, BrierAdj)),
      "su" := Grade(LastMetric(rows, model, Su)),
      "ats" := Grade(LastMetric(rows, model, Ats)),
      "ats_be" := Grade(LastMetric(rows, model, AtsBe)),
      "ats_be_play_pct" := Grade(LastMetric(rows, model, AtsBePlayPct)),
      "market_correl" := Grade(LastMetric(rows, model, MarketCorrel)),
      "brier_nfelo_close" := Grade(LastMetric(rows, "nfelo_close", Brier)),
      "ats_nfelo_close" := Grade(LastMetric(rows, "nfelo_close", Ats)),
      "ats_be_nfelo_close" := Grade(LastMetric(rows, "nfelo_close", AtsBe))
    ]
  }

  /** The configuration entries of opti_rec: the value of each key of
      `keys` in the configuration, written in order over `rec`. */
  function ConfigEntries(p: NR.Params, keys: seq<NR.ConfigKey>, rec: map<string, Entry>): (r: map<string, Entry>)
    ensures forall k :: k in rec ==> k in r
    ensures forall key :: key in keys ==> NR.KeyName(key) in r
    decreases |keys|
  {
    if |keys| == 0 then rec
    else ConfigEntries(p, keys[1..], rec[NR.KeyName(keys[0]) := Number(NR.Get(p, keys[0]))])
  }

  class NfeloOptimizer {
    const optiTag: string
    const nfeloModel: Model.Nfelo
    const modelName: string
    const features: seq<NR.ConfigKey>
    const objective: string
    const spec: ObjectiveSpec
    const bestGuesses: seq<real>
    const bounds: seq<(real, real)>

    var optiVals: seq<real>
    var optiSeconds: real
    var optiRec: map<string, Entry>

    /** The objective and every feature are known and the engine can run. */
    predicate Valid()
      reads nfeloModel`config
    {
      nfeloModel.Valid() && ObjectiveInfo(objective) == Ok(spec) && modelName == spec.model &&
      Known(features) && |bestGuesses| == |features|
    }

    /** __init__ once its lookups have succeeded: the objective's variant,
        the best guesses, the unit bounds and an empty record. */
    constructor (optiTag: string, nfeloModel: Model.Nfelo, features: seq<NR.ConfigKey>, objective: string,
                 spec: ObjectiveSpec, bestGuesses: seq<real>)
      requires ObjectiveInfo(objective) == Ok(spec) && Known(features) && |bestGuesses| == |features|
      ensures this.optiTag == optiTag && this.nfeloModel == nfeloModel && this.modelName == spec.model
      ensures this.features == features && this.objective == objective && this.spec == spec
      ensures this.bestGuesses == bestGuesses
      ensures |bounds| == |features| && forall i :: 0 <= i < |bounds| ==> bounds[i] == (0.0, 1.0)
      ensures optiVals == [] && optiSeconds == 0.0 && optiRec == map[]
    {
      this.optiTag := optiTag;
      this.nfeloModel := nfeloModel;
      this.modelName := spec.model;
      this.features := features;
      this.objective := objective;
      this.spec := spec;
      this.bestGuesses := bestGuesses;
      bounds := seq(|features|, _ => (0.0, 1.0));
      optiVals := [];
      optiSeconds := 0.0;
      optiRec := map[];
    }

    /** __init__ with its lookups: the objective's entry first, then the
        best guess of every feature; either lookup's KeyError is the
        result when it fails. */
    static method New(optiTag: string, nfeloModel: Model.Nfelo, features: seq<NR.ConfigKey>, objective: string)
      returns (r: Result<NfeloOptimizer, Error>)
      ensures r.Ok? <==> ObjectiveInfo(objective).Ok? && Known(features)
      ensures ObjectiveInfo(objective).Err? ==> r == Err(KeyMissing(objective))
      ensures r.Ok? ==>
        && fresh(r.value) && r.value.nfeloModel == nfeloModel && r.value.features == features
        && r.value.spec == ObjectiveInfo(objective).value && r.value.modelName == r.value.spec.model
        && |r.value.bestGuesses| == |features| && InUnitBox(r.value.bestGuesses)
        && r.value.optiVals == [] && r.value.optiRec == map[]
    {
      var spec := ObjectiveInfo(objective);
      if spec.Err? {
        return Err(spec.error);
      }
      var guesses := GenBestGuesses(features);
      if guesses.Err? {
        return Err(guesses.error);
      }
      var o := new NfeloOptimizer(optiTag, nfeloModel, features, objective, spec.value, guesses.value);
      r := Ok(o);
    }

    /** What a fresh run of the engine yields under its current
        configuration: update_config resets the state, and run applies
        every played game from the first rated season on. */
    function Rerun(): Result<seq<NR.GameRow>, Error>
      requires nfeloModel.Valid()
      reads nfeloModel`config
    {
      NR.RunGames(nfeloModel.Environment(),
                  NR.EngineState(NR.InitialElos(nfeloModel.teams, nfeloModel.initialElos), map[], [], []),
                  NR.Played(NR.FromFirstSeason(nfeloModel.data), nfeloModel.lastCompletedWeek,
                            nfeloModel.lastCompletedSeason)).result
    }

    /** update_params: build the updates from the point and merge them into
        the engine's configuration, which resets its state. */
    method UpdateParams(x: seq<real>)
      requires Valid() && |x| == |features| && InUnitBox(x)
      modifies nfeloModel
      ensures Valid()
      ensures nfeloModel.config == NR.Merge(old(nfeloModel.config), UpdatesOf(features, x))
      ensures nfeloModel.currentFile == NR.FromFirstSeason(nfeloModel.data)
      ensures nfeloModel.currentElos == NR.InitialElos(nfeloModel.teams, nfeloModel.initialElos)
      ensures nfeloModel.yearlyElos == map[] && nfeloModel.reversionRecords == []
      ensures nfeloModel.eloRecords == [] && nfeloModel.updatedFile.None?
    {
      var updates: map<NR.ConfigKey, real> := map[];
      for i := 0 to |x|
        invariant Known(features[..i])
        invariant updates == UpdatesOf(features[..i], x[..i])
      {
        var f := FeatureInfo(features[i]).value;
        assert features[..i + 1][..i] == features[..i] && x[..i + 1][..i] == x[..i];
        updates := updates[features[i] := Denormalized(f, x[i])];
      }
      assert features[..|x|] == features && x[..|x|] == x;
      UpdatesKeepValid(nfeloModel.config, features, x);
      nfeloModel.UpdateConfig(updates);
    }

    /** The first three steps of obj_func: update the configuration,
        rerun the engine and grade its output. */
    method Evaluate(x: seq<real>, toFrame: seq<NR.GameRow> -> GM.Frame, h: Helpers)
      returns (graded: Result<seq<GradedRow>, Error>)
      requires Valid() && |x| == |features| && InUnitBox(x)
      requires forall rows :: toFrame(rows).Valid()
      modifies nfeloModel
      ensures Valid()
      ensures nfeloModel.config == NR.Merge(old(nfeloModel.config), UpdatesOf(features, x))
      ensures graded == GradeRun(toFrame, h, Rerun())
    {
      UpdateParams(x);
      var run := nfeloModel.Run();
      if run.Err? {
        return Err(run.error);
      }
      graded := GradeOutput(nfeloModel.updatedFile.value, toFrame, h);
    }

    /** obj_func: evaluate the point and transform the objective's metric. */
    method ObjFunc(x: seq<real>, toFrame: seq<NR.GameRow> -> GM.Frame, h: Helpers)
      returns (r: Result<Option<real>, Error>)
      requires Valid() && |x| == |features| && InUnitBox(x)
      requires forall rows :: toFrame(rows).Valid()
      modifies nfeloModel
      ensures Valid() && spec.scale != 0.0
      ensures nfeloModel.config == NR.Merge(old(nfeloModel.config), UpdatesOf(features, x))
      ensures r == Evaluation(spec, GradeRun(toFrame, h, Rerun()))
    {
      var graded := Evaluate(x, toFrame, h);
      if graded.Err? {
        return Err(graded.error);
      }
      var grade := MetricExtraction(graded.value, spec.model, spec.metric);
      r := ParseGrade(spec, grade);
    }

    /** optimize after the search: rerun and grade at the solution, append
        the denormalised solution to opti_vals, then rebuild opti_rec; the
        average time per evaluation divides by the iteration count, so a
        search without iterations leaves only the first four entries. */
    method Optimize(sol: Solution, seconds: real, date: string,
                    toFrame: seq<NR.GameRow> -> GM.Frame, h: Helpers)
      returns (r: Result<(), Error>)
      requires Valid() && |sol.x| == |features| && InUnitBox(sol.x)
      requires forall rows :: toFrame(rows).Valid()
      modifies this, nfeloModel
      ensures Valid() && optiSeconds == seconds
      ensures nfeloModel.config == NR.Merge(old(nfeloModel.config), UpdatesOf(features, sol.x))
      ensures r.Ok? <==> GradeRun(toFrame, h, Rerun()).Ok? && sol.nit != 0
      ensures GradeRun(toFrame, h, Rerun()).Err? ==>
                r == Err(GradeRun(toFrame, h, Rerun()).error) && optiVals == old(optiVals) && optiRec == old(optiRec)
      ensures GradeRun(toFrame, h, Rerun()).Ok? ==> optiVals == old(optiVals) + Denormalised(features, sol.x)
      ensures GradeRun(toFrame, h, Rerun()).Ok? && sol.nit == 0 ==>
                r == Err(ZeroDivision) && optiRec == StartRecord(seconds, date, sol.nit)
      ensures r.Ok? ==>
                optiRec == ConfigEntries(nfeloModel.config, FeatureKeys,
                                         FullRecord(seconds, date, sol, GradeRun(toFrame, h, Rerun()).value))
    {
      optiSeconds := seconds;
      var graded := Evaluate(sol.x, toFrame, h);
      if graded.Err? {
        return Err(graded.error);
      }
      r := Record(sol, seconds, date, graded.value);
    }

    /** The record-keeping half of optimize, for a graded solution. */
    method Record(sol: Solution, seconds: real, date: string, rows: seq<GradedRow>)
      returns (r: Result<(), Error>)
      requires |sol.x| == |features| && Known(features)
      modifies this`optiVals, this`optiRec
      ensures optiVals == old(optiVals) + Denormalised(features, sol.x)
      ensures r.Ok? <==> sol.nit != 0
      ensures sol.nit == 0 ==> r == Err(ZeroDivision) && optiRec == StartRecord(seconds, date, sol.nit)
      ensures r.Ok? ==> optiRec == ConfigEntries(nfeloModel.config, FeatureKeys, FullRecord(seconds, date, sol, rows))
    {
      RecordValues(sol.x);
      optiRec := StartRecord(seconds, date, sol.nit);
      if sol.nit == 0 {
        return Err(ZeroDivision);
      }
      optiRec := FullRecord(seconds, date, sol, rows);
      AddConfig(FeatureKeys);
      r := Ok(());
    }

    /** optimize's first loop: append each coordinate, denormalised. */
    method RecordValues(x: seq<real>)
      requires |x| == |features| && Known(features)
      modifies this`optiVals
      ensures optiVals == old(optiVals) + Denormalised(features, x)
    {
      for i := 0 to |x|
        invariant optiVals == old(optiVals) + Denormalised(features, x)[..i]
      {
        assert Denormalised(features, x)[..i + 1] == Denormalised(features, x)[..i] + [Denormalised(features, x)[i]];
        optiVals := optiVals + [Denormalized(FeatureInfo(features[i]).value, x[i])];
      }
      assert Denormalised(features, x)[..|x|] == Denormalised(features, x);
    }

    /** optimize's last loop: each key's configuration value, in order. */
    method AddConfig(keys: seq<NR.ConfigKey>)
      modifies this`optiRec
      ensures optiRec == ConfigEntries(nfeloModel.config, keys, old(optiRec))
    {
      for i := 0 to |keys|
        invariant ConfigEntries(nfeloModel.config, keys[i..], optiRec) == ConfigEntries(nfeloModel.config, keys, old(optiRec))
      {
        assert keys[i..][1..] == keys[i + 1..];
        optiRec := optiRec[NR.KeyName(keys[i]) := Number(NR.Get(nfeloModel.config, keys[i]))];
      }
    }

    /** The entries written before the average time per evaluation. */
    function StartRecord(seconds: real, date: string, nit: int): map<string, Entry>
    {
      map["optimization_type" := Label(optiTag), "opti_date" := Label(date), "run_time" := Number(seconds),
          "iterations" := Count(nit)]
    }

    /** opti_rec before its configuration entries: the run's description,
        the reverted objective and the performance of the graded rows. */
    function FullRecord(seconds: real, date: string, sol: Solution, rows: seq<GradedRow>): map<string, Entry>
      requires sol.nit != 0
    {
      StartRecord(seconds, date, sol.nit)["avg_time_per_eval" := Number(seconds / sol.nit as real)]
        ["objective" := Label(objective)]["achieved_value" := Number(RevertObj(spec, sol.fun))]
        + Performance(rows, modelName)
    }
  }
}
