/** Table-based translation between spreads and win probabilities, and the
    closed-form conversion between rating differences and probabilities
    (nfelo/Utilities/spread_translation.py). */
module SpreadTranslation {
  import opened Wrappers
  import opened Numerics

  /** A lookup table built from a CSV: keys are the rounded values counted in
      thousandths, `lo` and `hi` the smallest and largest key. */
  datatype Table = Table(entries: map<int, real>, lo: int, hi: int)

  predicate ValidTable(t: Table) {
    t.lo in t.entries && t.hi in t.entries && t.lo <= t.hi &&
    forall k :: k in t.entries ==> t.lo <= k <= t.hi
  }

  /** A pandas `.map(dict)`: the mapped value, NaN for a missing key. */
  function Lookup(t: Table, key: int): (r: Option<real>)
    ensures r.Some? <==> key in t.entries
    ensures r.Some? ==> r.value == t.entries[key]
  {
    if key in t.entries then Some(t.entries[key]) else None
  }

  /** A dictionary subscript: the mapped value, KeyError for a missing key. */
  function Subscript(t: Table, key: int): (r: Result<real, Error>)
    ensures r.Ok? <==> key in t.entries
    ensures r.Ok? ==> r.value == t.entries[key]
  {
    if key in t.entries then Ok(t.entries[key]) else Err(KeyMissing("table key"))
  }

  /** Thousandths of `x`, as `round(x, 3)` gives them. */
  function Key(x: real): int {
    RoundKey(x, 1000)
  }

  // -------------------------------------------------------------------
  // spread -> probability

  /** spread_to_probability_vector, one element: round to three decimals,
      clip into the table's range, look the key up. */
  function SpreadToProbabilityVector(t: Table, spread: real): (r: Option<real>)
    requires ValidTable(t)
    ensures t.lo <= Key(spread) <= t.hi ==> r == Lookup(t, Key(spread))
    ensures Key(spread) < t.lo ==> r == Some(t.entries[t.lo])
    ensures Key(spread) > t.hi ==> r == Some(t.entries[t.hi])
  {
    Lookup(t, ClampInt(Key(spread), t.lo, t.hi))
  }

  /** spread_to_probability_float as written: `min(min_, max(max_, spread))`
      is always the table minimum, so every spread maps to the probability
      of the smallest spread in the table. */
  function SpreadToProbabilityFloat(t: Table, spread: real): (r: Result<real, Error>)
    requires ValidTable(t)
    ensures r == Ok(t.entries[t.lo])
  {
    var lo := t.lo as real / 1000.0;
    var hi := t.hi as real / 1000.0;
    assert Key(lo) == t.lo by { KeyOfThousandths(t.lo); }
    Subscript(t, Key(Min(lo, Max(hi, spread))))
  }

  lemma KeyOfThousandths(k: int)
    ensures Key(k as real / 1000.0) == k
  {
    assert (k as real / 1000.0) * 1000.0 == k as real;
    RoundHalfEvenOfInt(k);
  }

  /** The two spread translations disagree on the table's largest spread as
      soon as its probability differs from the smallest spread's. */
  lemma SpreadFloatDisagreesWithVector(t: Table)
    requires ValidTable(t) && t.entries[t.lo] != t.entries[t.hi]
    ensures var top := t.hi as real / 1000.0;
            SpreadToProbabilityVector(t, top) == Some(t.entries[t.hi]) &&
            SpreadToProbabilityFloat(t, top) == Ok(t.entries[t.lo]) &&
            t.entries[t.lo] != t.entries[t.hi]
  {
    KeyOfThousandths(t.hi);
  }

  /** The scalar translation as evidently intended: clip the spread into the
      table's range, then round and look up, as the vector form does. */
  function SpreadToProbabilityFloatIntended(t: Table, spread: real): (r: Result<real, Error>)
    requires ValidTable(t)
    ensures r.Ok? <==> SpreadToProbabilityVector(t, spread).Some?
    ensures r.Ok? ==> r.value == SpreadToProbabilityVector(t, spread).value
  {
    var lo := t.lo as real / 1000.0;
    var hi := t.hi as real / 1000.0;
    ClampThenRound(spread, t.lo, t.hi);
    Subscript(t, Key(Max(lo, Min(hi, spread))))
  }

  /** Clipping into a range whose ends are whole thousandths and then
      rounding gives the same key as rounding and then clipping. */
  lemma ClampThenRound(x: real, lo: int, hi: int)
    requires lo <= hi
    ensures Key(Max(lo as real / 1000.0, Min(hi as real / 1000.0, x))) == ClampInt(Key(x), lo, hi)
  {
    var l := lo as real / 1000.0;
    var h := hi as real / 1000.0;
    KeyOfThousandths(lo);
    KeyOfThousandths(hi);
    assert l <= h;
    if x < l {
      RoundHalfEvenMonotone(x * 1000.0, l * 1000.0);
    } else if x > h {
      RoundHalfEvenMonotone(h * 1000.0, x * 1000.0);
    } else {
      RoundHalfEvenMonotone(l * 1000.0, x * 1000.0);
      RoundHalfEvenMonotone(x * 1000.0, h * 1000.0);
    }
  }

  // -------------------------------------------------------------------
  // probability -> spread

  /** probability_to_spread_vector, one element: round, clip, then look up
      by the three-decimal key. */
  function ProbabilityToSpreadVector(t: Table, probability: real): (r: Option<real>)
    requires ValidTable(t)
    ensures t.lo <= Key(probability) <= t.hi ==> r == Lookup(t, Key(probability))
    ensures Key(probability) < t.lo ==> r == Some(t.entries[t.lo])
    ensures Key(probability) > t.hi ==> r == Some(t.entries[t.hi])
  {
    Lookup(t, ClampInt(Key(probability), t.lo, t.hi))
  }

  /** probability_to_spread_float: clip into [table min, table max], round to
      three decimals, subscript (KeyError for a key the table lacks). */
  function ProbabilityToSpreadFloat(t: Table, probability: real): (r: Result<real, Error>)
    requires ValidTable(t)
  {
    var lo := t.lo as real / 1000.0;
    var hi := t.hi as real / 1000.0;
    Subscript(t, Key(Max(lo, Min(hi, probability))))
  }

  /** The scalar and the vector probability translations agree: the scalar
      succeeds exactly where the vector finds a value, with that value, and
      a probability beyond the table takes the value at the nearer end. */
  lemma ProbabilityToSpreadAgree(t: Table, probability: real)
    requires ValidTable(t)
    ensures ProbabilityToSpreadFloat(t, probability).Ok?
        <==> ProbabilityToSpreadVector(t, probability).Some?
    ensures ProbabilityToSpreadFloat(t, probability).Ok? ==>
      ProbabilityToSpreadFloat(t, probability).value == ProbabilityToSpreadVector(t, probability).value
    ensures probability * 1000.0 <= t.lo as real ==> ProbabilityToSpreadFloat(t, probability) == Ok(t.entries[t.lo])
    ensures probability * 1000.0 >= t.hi as real ==> ProbabilityToSpreadFloat(t, probability) == Ok(t.entries[t.hi])
  {
    ClampThenRound(probability, t.lo, t.hi);
    KeyOfThousandths(t.lo);
    KeyOfThousandths(t.hi);
    var l := t.lo as real / 1000.0;
    var h := t.hi as real / 1000.0;
    if probability * 1000.0 <= t.lo as real {
      assert probability <= l;
    }
    if probability * 1000.0 >= t.hi as real {
      assert probability >= h;
    }
  }

  // -------------------------------------------------------------------
  // rating difference <-> probability

  /** elo_to_prob: `1 / (10 ** (-d / z) + 1)`; raises unless z > 0. */
  function EloToProb(m: Math, eloDif: real, z: real): (r: Result<real, Error>)
    ensures r.Err? <==> z <= 0.0
    ensures r.Ok? ==> 0.0 < r.value < 1.0
  {
    if z <= 0.0 then Err(BadValue("Z must be greater than 0"))
    else
      var a := m.pow10(-eloDif / z);
      assert a + 1.0 > 1.0;
      Ok(1.0 / (a + 1.0))
  }

  /** prob_to_elo: `-z * log10(1 / p - 1)`; raises unless z > 0, and
      `1 / p` raises at p == 0. */
  function ProbToElo(m: Math, winProb: real, z: real): (r: Result<real, Error>)
    ensures r.Err? <==> z <= 0.0 || winProb == 0.0
  {
    if z <= 0.0 then Err(BadValue("Z must be greater than 0"))
    else if winProb == 0.0 then Err(ZeroDivision)
    else Ok(-z * m.log10(1.0 / winProb - 1.0))
  }

  /** Even teams are a coin flip. */
  lemma EloToProbAtZero(m: Math, z: real)
    requires z > 0.0 && m.pow10(0.0) == 1.0
    ensures EloToProb(m, 0.0, z) == Ok(0.5)
  {
    var q := -0.0 / z;
    assert q == 0.0 by { assert q * z == -0.0; }
    var a := m.pow10(q);
    assert a == 1.0;
    assert 1.0 / (a + 1.0) == 0.5;
  }

  /** Swapping the teams complements the probability. */
  lemma EloToProbSymmetric(m: Math, d: real, z: real)
    requires z > 0.0
    requires m.pow10(d / z) * m.pow10(-d / z) == 1.0
    ensures EloToProb(m, d, z).value + EloToProb(m, -d, z).value == 1.0
  {
    var a := m.pow10(-d / z);
    var b := m.pow10(-(-d) / z);
    assert -(-d) / z == d / z;
    assert a * b == 1.0;
    assert 1.0 / (a + 1.0) + 1.0 / (b + 1.0) == 1.0 by {
      assert (a + 1.0) * (b + 1.0) == a + b + 2.0;
      assert 1.0 / (a + 1.0) + 1.0 / (b + 1.0) == ((b + 1.0) + (a + 1.0)) / ((a + 1.0) * (b + 1.0));
    }
  }

  /** prob_to_elo undoes elo_to_prob. */
  lemma ProbToEloOfEloToProb(m: Math, d: real, z: real)
    requires z > 0.0
    requires m.log10(m.pow10(-d / z)) == -d / z
    ensures ProbToElo(m, EloToProb(m, d, z).value, z).Ok?
    ensures ProbToElo(m, EloToProb(m, d, z).value, z).value == d
  {
    var a := m.pow10(-d / z);
    var p := 1.0 / (a + 1.0);
    assert EloToProb(m, d, z) == Ok(p);
    assert p > 0.0;
    assert 1.0 / p - 1.0 == a;
    assert ProbToElo(m, p, z).value == -z * m.log10(a);
    assert -z * (-d / z) == d;
  }

  /** elo_to_prob undoes prob_to_elo on (0, 1). */
  lemma EloToProbOfProbToElo(m: Math, p: real, z: real)
    requires z > 0.0 && 0.0 < p < 1.0
    requires m.pow10(m.log10(1.0 / p - 1.0)) == 1.0 / p - 1.0
    ensures EloToProb(m, ProbToElo(m, p, z).value, z).Ok?
    ensures EloToProb(m, ProbToElo(m, p, z).value, z).value == p
  {
    var y := 1.0 / p - 1.0;
    var d := -z * m.log10(y);
    assert ProbToElo(m, p, z).value == d;
    assert -d / z == m.log10(y);
    assert EloToProb(m, d, z).value == 1.0 / (m.pow10(m.log10(y)) + 1.0);
    assert 1.0 / (y + 1.0) == p;
  }
}
