/** Numeric helpers shared by the whole model.

    The source calls `math.pow`, `numpy.log10`, `math.log`, `numpy.exp` and
    `** (1/2)`.  None of them can be computed exactly over the reals, so the
    model takes them as parameters bundled in a `Math` value.  The only law
    built into the type is that `10 ** x` is positive; every other law a
    lemma needs is stated as a `requires` about the points it is used at. */
module Numerics {
  import opened Wrappers

  /** A function with only positive values, such as `x -> 10 ** x`. */
  type PositiveFn = f: real -> real | forall x :: f(x) > 0.0 witness (x: real) => 1.0

  /** The transcendental functions the source uses: `10 ** x`, `log10`,
      natural `log`, `log(x, base)`, square root and `exp`. */
  datatype Math = Math(
    pow10: PositiveFn,
    log10: real -> real,
    ln: real -> real,
    logBase: (real, real) -> real,
    sqrt: real -> real,
    exp: real -> real)

  function Abs(x: real): (r: real)
    ensures r >= 0.0 && (r == x || r == -x)
  {
    if x < 0.0 then -x else x
  }

  function Max(a: real, b: real): (r: real)
    ensures r >= a && r >= b && (r == a || r == b)
  {
    if a >= b then a else b
  }

  function Min(a: real, b: real): (r: real)
    ensures r <= a && r <= b && (r == a || r == b)
  {
    if a <= b then a else b
  }

  function ClampInt(k: int, lo: int, hi: int): (r: int)
    requires lo <= hi
    ensures lo <= r <= hi
    ensures lo <= k <= hi ==> r == k
  {
    if k < lo then lo else if k > hi then hi else k
  }

  function Sign(x: real): (r: int)
    ensures r == 1 <==> x > 0.0
    ensures r == -1 <==> x < 0.0
    ensures r == 0 <==> x == 0.0
  {
    if x > 0.0 then 1 else if x < 0.0 then -1 else 0
  }

  predicate IsWhole(x: real) {
    x == x.Floor as real
  }

  /** Python's `round` and numpy's `rint` on an exact value: the nearest
      integer, ties to the even neighbour. */
  function RoundHalfEven(x: real): (r: int)
    ensures r as real - 0.5 <= x <= r as real + 0.5
    ensures IsWhole(x) ==> r == x.Floor
  {
    var f := x.Floor;
    var d := x - f as real;
    if d < 0.5 then f
    else if d > 0.5 then f + 1
    else if f % 2 == 0 then f
    else f + 1
  }

  lemma RoundHalfEvenMonotone(x: real, y: real)
    requires x <= y
    ensures RoundHalfEven(x) <= RoundHalfEven(y)
  {
    // both results are within a half of their argument, so a larger result
    // for x is only possible at a common tie, where both pick the even one
  }

  lemma RoundHalfEvenOfInt(k: int)
    ensures RoundHalfEven(k as real) == k
  {
    assert IsWhole(k as real);
  }

  /** `round(x, n)` as an integer key: `x` counted in units of `1/scale`. */
  function RoundKey(x: real, scale: nat): int {
    RoundHalfEven(x * scale as real)
  }

  /** statistics.median: middle element of the sorted values, or the mean of
      the two middle ones; `None` where the source raises on an empty list. */
  function Median(s: seq<real>): (r: Option<real>)
    ensures r.None? <==> |s| == 0
  {
    if |s| == 0 then None
    else
      var t := SortBy(s, RealLe);
      SortByLength(s, RealLe);
      var n := |t|;
      if n % 2 == 1 then Some(t[n / 2]) else Some((t[n / 2 - 1] + t[n / 2]) / 2.0)
  }

  function RealLe(a: real, b: real): bool { a <= b }

  // ---------------------------------------------------------------------
  // Stable insertion sort by a caller-supplied order (pandas sort_values).

  ghost predicate Total<T(!new)>(le: (T, T) -> bool) {
    forall a, b :: le(a, b) || le(b, a)
  }

  ghost predicate Transitive<T(!new)>(le: (T, T) -> bool) {
    forall a, b, c :: le(a, b) && le(b, c) ==> le(a, c)
  }

  ghost predicate TotalPreorder<T(!new)>(le: (T, T) -> bool) {
    Total(le) && Transitive(le)
  }

  predicate SortedBy<T>(s: seq<T>, le: (T, T) -> bool) {
    forall i, j :: 0 <= i < j < |s| ==> le(s[i], s[j])
  }

  function Insert<T>(x: T, s: seq<T>, le: (T, T) -> bool): seq<T> {
    if |s| == 0 then [x]
    else if le(x, s[0]) then [x] + s
    else [s[0]] + Insert(x, s[1..], le)
  }

  function SortBy<T>(s: seq<T>, le: (T, T) -> bool): seq<T> {
    if |s| == 0 then [] else Insert(s[0], SortBy(s[1..], le), le)
  }

  lemma {:induction false} InsertPermutation<T>(x: T, s: seq<T>, le: (T, T) -> bool)
    ensures multiset(Insert(x, s, le)) == multiset(s) + multiset{x}
  {
    if |s| > 0 && !le(x, s[0]) {
      InsertPermutation(x, s[1..], le);
      assert s == [s[0]] + s[1..];
    }
  }

  lemma {:induction false} SortByPermutation<T>(s: seq<T>, le: (T, T) -> bool)
    ensures multiset(SortBy(s, le)) == multiset(s)
  {
    if |s| > 0 {
      SortByPermutation(s[1..], le);
      InsertPermutation(s[0], SortBy(s[1..], le), le);
      assert s == [s[0]] + s[1..];
    }
  }

  lemma SortByLength<T>(s: seq<T>, le: (T, T) -> bool)
    ensures |SortBy(s, le)| == |s|
  {
    SortByPermutation(s, le);
    assert |multiset(SortBy(s, le))| == |multiset(s)|;
  }

  /** An element below every element of a sorted list heads a sorted list. */
  lemma ConsSorted<T>(a: T, r: seq<T>, le: (T, T) -> bool)
    requires SortedBy(r, le)
    requires forall j :: 0 <= j < |r| ==> le(a, r[j])
    ensures SortedBy([a] + r, le)
  {
    var q := [a] + r;
    forall i, j | 0 <= i < j < |q|
      ensures le(q[i], q[j])
    {
      if i == 0 {
        assert q[j] == r[j - 1];
      } else {
        assert q[i] == r[i - 1] && q[j] == r[j - 1];
      }
    }
  }

  /** Below the head of a sorted list is below all of it. */
  lemma BelowHead<T(!new)>(x: T, s: seq<T>, le: (T, T) -> bool)
    requires Transitive(le) && SortedBy(s, le) && |s| > 0 && le(x, s[0])
    ensures forall j :: 0 <= j < |s| ==> le(x, s[j])
  {
    forall j | 0 < j < |s|
      ensures le(x, s[j])
    {
      assert le(s[0], s[j]);
    }
  }

  /** Inserting past the head keeps the head below everything after it. */
  lemma HeadBelowInserted<T(!new)>(x: T, s: seq<T>, le: (T, T) -> bool)
    requires Total(le) && SortedBy(s, le) && |s| > 0 && !le(x, s[0])
    ensures forall j :: 0 <= j < |Insert(x, s[1..], le)| ==> le(s[0], Insert(x, s[1..], le)[j])
  {
    var tail := s[1..];
    var r := Insert(x, tail, le);
    InsertPermutation(x, tail, le);
    forall j | 0 <= j < |r|
      ensures le(s[0], r[j])
    {
      var y := r[j];
      assert y in multiset(r);
      if y == x {
        assert le(x, s[0]) || le(s[0], x);
      } else {
        assert y in multiset(tail);
        var k :| 0 <= k < |tail| && tail[k] == y;
        assert s[k + 1] == y;
      }
    }
  }

  lemma {:induction false} InsertSorted<T(!new)>(x: T, s: seq<T>, le: (T, T) -> bool)
    requires TotalPreorder(le)
    requires SortedBy(s, le)
    ensures SortedBy(Insert(x, s, le), le)
  {
    if |s| > 0 && le(x, s[0]) {
      BelowHead(x, s, le);
      ConsSorted(x, s, le);
    } else if |s| > 0 {
      InsertSorted(x, s[1..], le);
      HeadBelowInserted(x, s, le);
      ConsSorted(s[0], Insert(x, s[1..], le), le);
    }
  }

  lemma {:induction false} SortBySorted<T(!new)>(s: seq<T>, le: (T, T) -> bool)
    requires TotalPreorder(le)
    ensures SortedBy(SortBy(s, le), le)
  {
    if |s| > 0 {
      SortBySorted(s[1..], le);
      InsertSorted(s[0], SortBy(s[1..], le), le);
    }
  }

  lemma RealLeTotal()
    ensures TotalPreorder(RealLe)
  {
  }

  /** The median lies between the lower and the upper half of the sorted
      values; in particular between the smallest and the largest value. */
  lemma MedianSplitsSorted(s: seq<real>)
    requires |s| > 0
    ensures |SortBy(s, RealLe)| == |s|
    ensures multiset(SortBy(s, RealLe)) == multiset(s)
    ensures forall k :: 0 <= k < |s| && 2 * k < |s| ==> SortBy(s, RealLe)[k] <= Median(s).value
    ensures forall k :: 0 <= k < |s| && 2 * k >= |s| - 1 ==> Median(s).value <= SortBy(s, RealLe)[k]
  {
    SortByLength(s, RealLe);
    SortByPermutation(s, RealLe);
    var t := SortBy(s, RealLe);
    assert SortedBy(t, RealLe) by {
      RealLeTotal();
      SortBySorted(s, RealLe);
    }
    SortedHalves(t, Median(s).value);
  }

  /** In a sorted list the middle value, or the mean of the two middle
      values, is no smaller than the lower half and no larger than the
      upper half. */
  lemma SortedHalves(t: seq<real>, med: real)
    requires |t| > 0 && SortedBy(t, RealLe)
    requires |t| % 2 == 1 ==> med == t[|t| / 2]
    requires |t| % 2 == 0 ==> med == (t[|t| / 2 - 1] + t[|t| / 2]) / 2.0
    ensures forall k :: 0 <= k < |t| && 2 * k < |t| ==> t[k] <= med
    ensures forall k :: 0 <= k < |t| && 2 * k >= |t| - 1 ==> med <= t[k]
  {
    var n := |t|;
    var h := n / 2;
    assert h < n && 2 * h <= n && n <= 2 * h + 1;
    assert n % 2 == 0 ==> h >= 1 && RealLe(t[h - 1], t[h]);
    forall k | 0 <= k < n && 2 * k < n
      ensures t[k] <= med
    {
      var top := if n % 2 == 0 then h - 1 else h;
      assert k <= top;
      if k < top { assert RealLe(t[k], t[top]); }
    }
    forall k | 0 <= k < n && 2 * k >= n - 1
      ensures med <= t[k]
    {
      assert k >= h;
      if k > h { assert RealLe(t[h], t[k]); }
    }
  }

  /** Multiplication as a function of its own, so that facts about a value
      times itself are proved once, from facts about two factors. */
  function Mul(a: real, b: real): real { a * b }

  lemma MulSign(a: real, b: real)
    ensures a > 0.0 && b > 0.0 ==> Mul(a, b) > 0.0
    ensures a < 0.0 && b < 0.0 ==> Mul(a, b) > 0.0
    ensures a == 0.0 || b == 0.0 ==> Mul(a, b) == 0.0
    ensures Mul(a, b) == Mul(b, a)
  {
    if a < 0.0 && b < 0.0 {
      assert a * b == (-a) * (-b);
    }
  }

  lemma MulMonotone(a: real, b: real, c: real)
    requires 0.0 <= a <= c && b >= 0.0
    ensures Mul(a, b) <= Mul(c, b)
  {
    assert (c - a) * b >= 0.0;
  }

  /** A nonnegative factor keeps an inequality. */
  lemma MulKeepsLe(a: real, x: real, y: real)
    requires a >= 0.0 && x <= y
    ensures a * x <= a * y
  {
    assert a * y - a * x == a * (y - x);
  }

  /** The product of two nonnegative factors is nonnegative. */
  lemma MulNonneg(a: real, x: real)
    requires a >= 0.0 && x >= 0.0
    ensures a * x >= 0.0
  {
  }

  /** Two parts of a nonzero whole, as shares of it, sum to one. */
  lemma SharesSumToOne(a: real, b: real)
    requires a + b != 0.0
    ensures a / (a + b) + b / (a + b) == 1.0
  {
    var t := a + b;
    var x := a / t;
    var y := b / t;
    assert x * t == a && y * t == b;
    assert (x + y - 1.0) * t == 0.0;
  }

  /** A part between zero and a positive whole is a share between 0 and 1. */
  lemma ShareWithinUnit(a: real, t: real)
    requires 0.0 <= a <= t && t > 0.0
    ensures 0.0 <= a / t <= 1.0
  {
    var x := a / t;
    assert x * t == a;
  }

  /** A total between lo and hi times its weight. */
  predicate ScaledWithin(lo: real, hi: real, p: real, w: real) {
    lo * w <= p <= hi * w
  }

  /** Dividing such a total by a positive weight lands between lo and hi. */
  lemma QuotientBetween(p: real, w: real, lo: real, hi: real)
    requires w > 0.0 && lo * w <= p <= hi * w
    ensures lo <= p / w <= hi
  {
    var a := p / w;
    assert a * w == p;
  }

  /** `x ** 2`. */
  function Sq(x: real): real { Mul(x, x) }

  /** A square is nonnegative, zero exactly at zero, even, and grows with
      the absolute value. */
  lemma SqFacts(x: real)
    ensures Sq(x) >= 0.0
    ensures Sq(x) == 0.0 <==> x == 0.0
    ensures Sq(-x) == Sq(x)
  {
    MulSign(x, x);
    assert Mul(-x, -x) == Mul(x, x);
  }

  lemma SqMonotone(x: real, c: real)
    requires Abs(x) <= c
    ensures Sq(x) <= Sq(c)
  {
    var a := Abs(x);
    SqFacts(x);
    assert Sq(x) == Sq(a);
    MulMonotone(a, a, c);
    MulMonotone(a, c, c);
    MulSign(a, c);
  }

  /** No value occurs twice, as for a key column such as `game_id`. */
  predicate Distinct<T(==)>(s: seq<T>) {
    forall i, j :: 0 <= i < j < |s| ==> s[i] != s[j]
  }

  function Sum(s: seq<real>): real {
    if |s| == 0 then 0.0 else s[0] + Sum(s[1..])
  }

  lemma {:induction false} SumAppend(a: seq<real>, b: seq<real>)
    ensures Sum(a + b) == Sum(a) + Sum(b)
  {
    if |a| == 0 {
      assert a + b == b;
    } else {
      SumAppend(a[1..], b);
      assert (a + b)[1..] == a[1..] + b;
    }
  }
  // ---------------------------------------------------------------------
  // Python's order on strings: lexicographic by code point.

  function StringLe(a: string, b: string): bool
    decreases |a|
  {
    if |a| == 0 then true
    else if |b| == 0 then false
    else if a[0] != b[0] then a[0] < b[0]
    else StringLe(a[1..], b[1..])
  }

  lemma {:induction false} StringLeTotal(a: string, b: string)
    ensures StringLe(a, b) || StringLe(b, a)
    decreases |a|
  {
    if |a| != 0 && |b| != 0 && a[0] == b[0] {
      StringLeTotal(a[1..], b[1..]);
    }
  }

  lemma {:induction false} StringLeTransitive(a: string, b: string, c: string)
    requires StringLe(a, b) && StringLe(b, c)
    ensures StringLe(a, c)
    decreases |a|
  {
    if |a| != 0 && |b| != 0 && |c| != 0 && a[0] == b[0] && b[0] == c[0] {
      StringLeTransitive(a[1..], b[1..], c[1..]);
    }
  }

  lemma {:induction false} StringLeAntisymmetric(a: string, b: string)
    requires StringLe(a, b) && StringLe(b, a)
    ensures a == b
    decreases |a|
  {
    if |a| != 0 {
      StringLeAntisymmetric(a[1..], b[1..]);
      assert a == [a[0]] + a[1..] && b == [b[0]] + b[1..];
    }
  }
}
