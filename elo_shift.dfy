/** The adaptive-K rating shift and its weighted average
    (nfelo/Utilities/elo_shift.py). */
module EloShift {
  import opened Wrappers
  import opened Numerics

  /** The K used: inflated by the relative excess of the model's error over
      the market's, but only when the model missed by at least a point, a
      resist factor is set and the market was closer. */
  function AdjK(k: real, modelError: real, marketError: real, marketResistFactor: real): real {
    if modelError < 1.0 || marketResistFactor == 0.0 then k
    else if modelError <= marketError then k
    else k * (1.0 + Abs(modelError - marketError) / marketResistFactor)
  }

  /** `adj_k` is `k` exactly in the three "no adjustment" cases and strictly
      larger than a positive `k` otherwise (for a positive resist factor). */
  lemma AdjKCases(k: real, modelError: real, marketError: real, marketResistFactor: real)
    ensures (modelError < 1.0 || marketResistFactor == 0.0 || modelError <= marketError)
            ==> AdjK(k, modelError, marketError, marketResistFactor) == k
    ensures k > 0.0 && marketResistFactor > 0.0 && modelError >= 1.0 && modelError > marketError
            ==> AdjK(k, modelError, marketError, marketResistFactor) > k
  {
    if k > 0.0 && marketResistFactor > 0.0 && modelError >= 1.0 && modelError > marketError {
      var q := Abs(modelError - marketError) / marketResistFactor;
      assert q > 0.0;
      assert k * (1.0 + q) == k + k * q;
      assert k * q > 0.0;
    }
  }

  /** The line from the adjusted team's point of view: a home spread is
      negated, an away spread is already that team's expected margin. */
  function Directed(line: real, isHome: bool): (r: real)
    ensures isHome ==> r == -line
    ensures !isHome ==> r == line
  {
    if isHome then -line else line
  }

  /** `log_b(max(pd, 1) + 1)`, the multiplier of K. */
  function Mult(m: Math, modelError: real, b: real): real {
    m.logBase(Max(modelError, 1.0) + 1.0, b)
  }

  /** `math.log(x, b)` is positive for x > 1 when b > 1. */
  ghost predicate LogPositiveAbove1(m: Math, b: real) {
    forall x :: x > 1.0 ==> m.logBase(x, b) > 0.0
  }

  /** `adj_k * log_b(max(pd, 1) + 1)`: the size of the shift before its
      direction is set, for directed lines `model` and `market`. */
  function Magnitude(m: Math, margin: real, model: real, market: real,
                     k: real, b: real, marketResistFactor: real): real
  {
    var modelError := Abs(margin - model);
    Mult(m, modelError, b) * AdjK(k, modelError, Abs(margin - market), marketResistFactor)
  }

  /** For k > 0 and b > 1 the magnitude is positive. */
  lemma MagnitudePositive(m: Math, margin: real, model: real, market: real,
                          k: real, b: real, marketResistFactor: real)
    requires b > 1.0 && k > 0.0 && marketResistFactor >= 0.0
    requires LogPositiveAbove1(m, b)
    ensures Magnitude(m, margin, model, market, k, b, marketResistFactor) > 0.0
  {
    var modelError := Abs(margin - model);
    var marketError := Abs(margin - market);
    AdjKCases(k, modelError, marketError, marketResistFactor);
    var adj := AdjK(k, modelError, marketError, marketResistFactor);
    assert adj >= k;
    var mult := Mult(m, modelError, b);
    assert Max(modelError, 1.0) + 1.0 > 1.0;
    assert mult > 0.0;
    assert mult * adj > 0.0;
  }

  /** calc_shift: the rating shift for one observed margin.  The source
      raises inside `math.log` for a base b <= 0 or b == 1. */
  function CalcShift(m: Math, margin: real, modelLine: real, marketLine: real,
                     k: real, b: real, marketResistFactor: real, isHome: bool): (r: real)
    requires b > 0.0 && b != 1.0
    ensures margin == Directed(modelLine, isHome) ==> r == 0.0
  {
    var model := Directed(modelLine, isHome);
    var market := Directed(marketLine, isHome);
    var shift := Magnitude(m, margin, model, market, k, b, marketResistFactor);
    if Abs(margin - model) == 0.0 then 0.0
    else if model > margin then -shift
    else shift
  }

  /** The home side is the away computation on negated lines. */
  lemma HomeIsNegatedAway(m: Math, margin: real, modelLine: real, marketLine: real,
                          k: real, b: real, marketResistFactor: real)
    requires b > 0.0 && b != 1.0
    ensures CalcShift(m, margin, modelLine, marketLine, k, b, marketResistFactor, true)
         == CalcShift(m, margin, -modelLine, -marketLine, k, b, marketResistFactor, false)
  {
  }

  /** With k > 0 and b > 1 the shift is zero exactly when the expectation was
      met exactly, negative exactly when the team fell short of its directed
      model line and positive exactly when it beat it; its size is always the
      magnitude `adj_k * log_b(max(err, 1) + 1)` otherwise. */
  lemma ShiftSign(m: Math, margin: real, modelLine: real, marketLine: real,
                  k: real, b: real, marketResistFactor: real, isHome: bool)
    requires b > 1.0 && k > 0.0 && marketResistFactor >= 0.0
    requires LogPositiveAbove1(m, b)
    ensures var s := CalcShift(m, margin, modelLine, marketLine, k, b, marketResistFactor, isHome);
            var model := Directed(modelLine, isHome);
            (s == 0.0 <==> margin == model) &&
            (s < 0.0 <==> model > margin) &&
            (s > 0.0 <==> model < margin) &&
            (margin != model ==>
              Abs(s) == Magnitude(m, margin, model, Directed(marketLine, isHome), k, b, marketResistFactor))
  {
    MagnitudePositive(m, margin, Directed(modelLine, isHome), Directed(marketLine, isHome), k, b, marketResistFactor);
  }

  /** A margin or a NaN/missing margin; a missing margin propagates NaN
      through every step of calc_shift. */
  function ShiftOf(m: Math, margin: Option<real>, modelLine: real, marketLine: real,
                   k: real, b: real, marketResistFactor: real, isHome: bool): (r: Option<real>)
    requires b > 0.0 && b != 1.0
    ensures r.Some? <==> margin.Some?
  {
    match margin
    case None => None
    case Some(x) => Some(CalcShift(m, x, modelLine, marketLine, k, b, marketResistFactor, isHome))
  }

  /** An observation: the measured margin (possibly missing) and its weight. */
  datatype Observation = Observation(margin: Option<real>, weight: real)

  /** A `(shift, weight)` pair, the shift possibly NaN. */
  datatype WeightedShift = WeightedShift(shift: Option<real>, weight: real)

  /** Sum of shift * weight over pairs with a shift. */
  function Product(pairs: seq<WeightedShift>): real {
    if |pairs| == 0 then 0.0
    else
      var last := pairs[|pairs| - 1];
      Product(pairs[..|pairs| - 1]) + (if last.shift.Some? then last.shift.value * last.weight else 0.0)
  }

  /** Sum of the weights over pairs with a shift. */
  function Weight(pairs: seq<WeightedShift>): real {
    if |pairs| == 0 then 0.0
    else
      var last := pairs[|pairs| - 1];
      Weight(pairs[..|pairs| - 1]) + (if last.shift.Some? then last.weight else 0.0)
  }

  /** The normalised weighted average; `product / weight` raises when no
      weight remains. */
  function WeightedAvg(pairs: seq<WeightedShift>): (r: Result<real, Error>)
    ensures r.Err? <==> Weight(pairs) == 0.0
    ensures r.Ok? ==> r.value * Weight(pairs) == Product(pairs)
  {
    if Weight(pairs) == 0.0 then Err(ZeroDivision) else Ok(Product(pairs) / Weight(pairs))
  }

  /** calc_weighted_avg: one pass gathering the product and the weight. */
  method CalcWeightedAvg(pairs: seq<WeightedShift>) returns (r: Result<real, Error>)
    ensures r == WeightedAvg(pairs)
  {
    var product := 0.0;
    var weight := 0.0;
    var i := 0;
    while i < |pairs|
      invariant 0 <= i <= |pairs|
      invariant product == Product(pairs[..i])
      invariant weight == Weight(pairs[..i])
    {
      var pair := pairs[i];
      assert pairs[..i + 1][..i] == pairs[..i];
      if pair.shift.Some? {
        product := product + pair.shift.value * pair.weight;
        weight := weight + pair.weight;
      }
      i := i + 1;
    }
    assert pairs[..i] == pairs;
    if weight == 0.0 {
      r := Err(ZeroDivision);
    } else {
      r := Ok(product / weight);
    }
  }

  /** Every present shift lies in [lo, hi] and every weight is nonnegative. */
  predicate ShiftsWithin(pairs: seq<WeightedShift>, lo: real, hi: real) {
    forall i :: 0 <= i < |pairs| ==>
      pairs[i].weight >= 0.0 && (pairs[i].shift.Some? ==> lo <= pairs[i].shift.value <= hi)
  }

  lemma {:induction false} ProductBounds(pairs: seq<WeightedShift>, lo: real, hi: real)
    requires ShiftsWithin(pairs, lo, hi)
    ensures ScaledWithin(lo, hi, Product(pairs), Weight(pairs))
    ensures Weight(pairs) >= 0.0
  {
    if |pairs| == 0 {
      BoundsEmpty(lo, hi, Product(pairs), Weight(pairs));
    } else {
      var init := pairs[..|pairs| - 1];
      assert ShiftsWithin(init, lo, hi) by {
        forall i | 0 <= i < |init| ensures init[i] == pairs[i] { }
      }
      ProductBounds(init, lo, hi);
      var last := pairs[|pairs| - 1];
      assert last.weight >= 0.0 && (last.shift.Some? ==> lo <= last.shift.value <= hi);
      BoundsStep(lo, hi, last, Product(init), Weight(init), Product(pairs), Weight(pairs));
    }
  }

  lemma BoundsEmpty(lo: real, hi: real, p: real, w: real)
    requires p == 0.0 && w == 0.0
    ensures ScaledWithin(lo, hi, p, w)
  {
  }

  /** One more pair keeps the product between lo and hi times the weight. */
  lemma BoundsStep(lo: real, hi: real, last: WeightedShift, p: real, w: real, p1: real, w1: real)
    requires ScaledWithin(lo, hi, p, w) && w >= 0.0
    requires last.weight >= 0.0 && (last.shift.Some? ==> lo <= last.shift.value <= hi)
    requires p1 == p + (if last.shift.Some? then last.shift.value * last.weight else 0.0)
    requires w1 == w + (if last.shift.Some? then last.weight else 0.0)
    ensures ScaledWithin(lo, hi, p1, w1) && w1 >= 0.0
  {
    if last.shift.Some? {
      var s, ws := last.shift.value, last.weight;
      MulKeepsLe(ws, lo, s);
      MulKeepsLe(ws, s, hi);
      assert lo * w1 == lo * w + ws * lo;
      assert hi * w1 == hi * w + ws * hi;
    } else {
      assert lo * w1 == lo * w && hi * w1 == hi * w;
    }
  }

  /** The weighted average is a convex combination: it lies between the
      smallest and the largest present shift. */
  lemma WeightedAvgWithin(pairs: seq<WeightedShift>, lo: real, hi: real)
    requires ShiftsWithin(pairs, lo, hi)
    ensures WeightedAvg(pairs).Ok? ==> lo <= WeightedAvg(pairs).value <= hi
  {
    ProductBounds(pairs, lo, hi);
    if Weight(pairs) != 0.0 {
      var w := Weight(pairs);
      QuotientBetween(Product(pairs), w, lo, hi);
    }
  }

  /** The shift/weight pairs calc_weighted_shift averages, one per
      observation, all with the same lines and parameters. */
  function ShiftPairs(m: Math, margins: seq<Observation>, modelLine: real, marketLine: real,
                      k: real, b: real, marketResistFactor: real, isHome: bool): (r: seq<WeightedShift>)
    requires b > 0.0 && b != 1.0
    ensures |r| == |margins|
    ensures forall i :: 0 <= i < |margins| ==>
      r[i] == WeightedShift(ShiftOf(m, margins[i].margin, modelLine, marketLine, k, b, marketResistFactor, isHome),
                            margins[i].weight)
  {
    if |margins| == 0 then []
    else
      ShiftPairs(m, margins[..|margins| - 1], modelLine, marketLine, k, b, marketResistFactor, isHome)
      + [WeightedShift(ShiftOf(m, margins[|margins| - 1].margin, modelLine, marketLine, k, b,
                               marketResistFactor, isHome),
                       margins[|margins| - 1].weight)]
  }

  /** calc_weighted_shift: build the pairs, then average them. */
  method CalcWeightedShift(m: Math, margins: seq<Observation>, modelLine: real, marketLine: real,
                           k: real, b: real, marketResistFactor: real, isHome: bool)
    returns (r: Result<real, Error>)
    requires b > 0.0 && b != 1.0
    ensures r == WeightedAvg(ShiftPairs(m, margins, modelLine, marketLine, k, b, marketResistFactor, isHome))
  {
    var shiftPairs: seq<WeightedShift> := [];
    var i := 0;
    while i < |margins|
      invariant 0 <= i <= |margins|
      invariant shiftPairs == ShiftPairs(m, margins[..i], modelLine, marketLine, k, b, marketResistFactor, isHome)
    {
      var shift := ShiftOf(m, margins[i].margin, modelLine, marketLine, k, b, marketResistFactor, isHome);
      assert margins[..i + 1][..i] == margins[..i];
      shiftPairs := shiftPairs + [WeightedShift(shift, margins[i].weight)];
      i := i + 1;
    }
    assert margins[..i] == margins;
    r := CalcWeightedAvg(shiftPairs);
  }

  /** Positive shifts with positive weights give a positive product and a
      positive total weight. */
  lemma {:induction false} PositivePairs(pairs: seq<WeightedShift>)
    requires forall i :: 0 <= i < |pairs| ==>
      pairs[i].weight > 0.0 && pairs[i].shift.Some? && pairs[i].shift.value > 0.0
    ensures Product(pairs) >= 0.0 && Weight(pairs) >= 0.0
    ensures |pairs| > 0 ==> Product(pairs) > 0.0 && Weight(pairs) > 0.0
  {
    if |pairs| > 0 {
      var init := pairs[..|pairs| - 1];
      assert forall i :: 0 <= i < |init| ==> init[i] == pairs[i];
      PositivePairs(init);
      var last := pairs[|pairs| - 1];
      assert last.shift.value * last.weight > 0.0;
    }
  }

  /** Such pairs have a positive weighted average. */
  lemma PositivePairsAverage(pairs: seq<WeightedShift>)
    requires |pairs| > 0
    requires forall i :: 0 <= i < |pairs| ==>
      pairs[i].weight > 0.0 && pairs[i].shift.Some? && pairs[i].shift.value > 0.0
    ensures WeightedAvg(pairs).Ok? && WeightedAvg(pairs).value > 0.0
  {
    PositivePairs(pairs);
  }

  /** When every channel is present, beats the directed model line and has a
      positive weight, the weighted shift is positive. */
  lemma AllChannelsBeatExpectation(m: Math, margins: seq<Observation>, modelLine: real, marketLine: real,
                                   k: real, b: real, marketResistFactor: real, isHome: bool)
    requires b > 1.0 && k > 0.0 && marketResistFactor >= 0.0
    requires LogPositiveAbove1(m, b)
    requires |margins| > 0
    requires forall i :: 0 <= i < |margins| ==>
      margins[i].weight > 0.0 && margins[i].margin.Some? &&
      margins[i].margin.value > Directed(modelLine, isHome)
    ensures var avg := WeightedAvg(ShiftPairs(m, margins, modelLine, marketLine, k, b, marketResistFactor, isHome));
            avg.Ok? && avg.value > 0.0
  {
    var pairs := ShiftPairs(m, margins, modelLine, marketLine, k, b, marketResistFactor, isHome);
    forall i | 0 <= i < |pairs|
      ensures pairs[i].weight > 0.0 && pairs[i].shift.Some? && pairs[i].shift.value > 0.0
    {
      var x := margins[i].margin.value;
      assert pairs[i].shift == Some(CalcShift(m, x, modelLine, marketLine, k, b, marketResistFactor, isHome));
      ShiftSign(m, x, modelLine, marketLine, k, b, marketResistFactor, isHome);
    }
    PositivePairsAverage(pairs);
  }
}
