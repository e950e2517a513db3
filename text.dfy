/** The handful of Python string operations the scrapers and the play
    classification rely on: `in`, `str.find`, `str.split` with an explicit
    separator, `str(int)`, `str.zfill`, and `int(...)`/`float(...)` on plain
    decimal text. */
module Text {
  import opened Wrappers

  /** `sep` occurs in `s` starting at position `i`. */
  predicate IsAt(s: string, sep: string, i: nat) {
    i + |sep| <= |s| && s[i..i + |sep|] == sep
  }

  /** `s.find(sep, from)`: the first position at or after `from` where `sep`
      occurs, `None` for Python's -1. */
  function Find(s: string, sep: string, from: nat): (r: Option<nat>)
    ensures r.Some? ==> from <= r.value && IsAt(s, sep, r.value)
    ensures forall i :: from <= i && (r.None? || i < r.value) ==> !IsAt(s, sep, i)
    decreases |s| - from
  {
    if from + |sep| > |s| then None
    else if s[from..from + |sep|] == sep then Some(from)
    else Find(s, sep, from + 1)
  }

  /** `sub in s`. */
  predicate Contains(s: string, sub: string) {
    Find(s, sub, 0).Some?
  }

  lemma ContainsAt(s: string, sub: string, i: nat)
    requires IsAt(s, sub, i)
    ensures Contains(s, sub)
  {
  }

  /** `s.split(sep)` for a non-empty separator: the pieces between the
      occurrences found from left to right, empty pieces kept. */
  function Split(s: string, sep: string): (r: seq<string>)
    requires |sep| > 0
    ensures |r| >= 1
    decreases |s|
  {
    match Find(s, sep, 0)
    case None => [s]
    case Some(i) => [s[..i]] + Split(s[i + |sep|..], sep)
  }

  /** `sep.join(parts)`. */
  function Join(parts: seq<string>, sep: string): string {
    if |parts| == 0 then ""
    else if |parts| == 1 then parts[0]
    else parts[0] + sep + Join(parts[1..], sep)
  }

  /** A string without an occurrence of `sep` splits into itself. */
  lemma SplitNone(s: string, sep: string)
    requires |sep| > 0
    requires forall i :: 0 <= i <= |s| ==> !IsAt(s, sep, i)
    ensures Split(s, sep) == [s]
  {
    assert Find(s, sep, 0).None?;
  }

  /** Splitting at the first occurrence: the piece before it, then the split
      of the rest. */
  lemma SplitFirst(a: string, sep: string, b: string)
    requires |sep| > 0
    requires forall i :: 0 <= i < |a| ==> !IsAt(a + sep + b, sep, i)
    ensures Split(a + sep + b, sep) == [a] + Split(b, sep)
  {
    var s := a + sep + b;
    assert IsAt(s, sep, |a|) by {
      assert s[|a|..|a| + |sep|] == sep;
    }
    var k := Find(s, sep, 0).value;
    assert k == |a|;
    assert s[..k] == a && s[k + |sep|..] == b;
  }

  /** A character not in `p` does not occur in it. */
  lemma CharNotAt(p: string, c: char, i: nat)
    requires c !in p
    ensures !IsAt(p, [c], i)
  {
    if i + 1 <= |p| {
      assert p[i..i + 1][0] == p[i];
    }
  }

  /** No occurrence of `sub` fits in a string missing one of its
      characters. */
  lemma NoCharNoOccurrence(s: string, sub: string, j: nat)
    requires j < |sub| && sub[j] !in s
    ensures forall i :: 0 <= i ==> !IsAt(s, sub, i)
    ensures !Contains(s, sub)
  {
    forall i: nat ensures !IsAt(s, sub, i) {
      if i + |sub| <= |s| {
        assert s[i..i + |sub|][j] == s[i + j];
        assert s[i + j] in s;
      }
    }
  }

  /** `sep` cannot start inside `x` when one of its characters is missing
      from `x` and differs from every character before it in `sep`. */
  lemma MarkerNotBefore(x: string, sep: string, y: string, j: nat)
    requires j < |sep| && sep[j] !in x
    requires forall k :: 0 <= k < j ==> sep[k] != sep[j]
    ensures forall i :: 0 <= i < |x| ==> !IsAt(x + sep + y, sep, i)
  {
    var s := x + sep + y;
    forall i: nat | i < |x| ensures !IsAt(s, sep, i) {
      assert s[i..i + |sep|][j] == s[i + j];
      if i + j < |x| {
        assert s[i + j] == x[i + j];
      } else {
        assert s[i + j] == sep[i + j - |x|];
      }
    }
  }

  /** Joining pieces that do not contain a one-character separator and
      splitting on it gives the pieces back. */
  lemma {:induction false} SplitJoin(parts: seq<string>, c: char)
    requires |parts| >= 1
    requires forall p :: p in parts ==> c !in p
    ensures Split(Join(parts, [c]), [c]) == parts
  {
    if |parts| == 1 {
      forall i | 0 <= i <= |parts[0]| ensures !IsAt(parts[0], [c], i) {
        CharNotAt(parts[0], c, i);
      }
      SplitNone(parts[0], [c]);
    } else {
      var a := parts[0];
      var rest := Join(parts[1..], [c]);
      forall i | 0 <= i < |a| ensures !IsAt(a + [c] + rest, [c], i) {
        var s := a + [c] + rest;
        assert a in parts && a[i] in a;
        assert s[i..i + 1][0] == s[i] == a[i];
      }
      SplitFirst(a, [c], rest);
      SplitJoin(parts[1..], c);
      assert parts == [a] + parts[1..];
    }
  }

  // -------------------------------------------------------------------
  // numbers as text

  predicate IsDigit(c: char) {
    '0' <= c <= '9'
  }

  predicate AllDigits(s: string) {
    forall i :: 0 <= i < |s| ==> IsDigit(s[i])
  }

  function DigitChar(d: nat): (c: char)
    requires d < 10
    ensures IsDigit(c)
  {
    ('0' as int + d) as char
  }

  /** `str(n)` for a natural number: decimal digits, no leading zero. */
  function NatToString(n: nat): (r: string)
    ensures |r| >= 1 && AllDigits(r)
    ensures n < 10 <==> |r| == 1
    decreases n
  {
    if n < 10 then [DigitChar(n)] else NatToString(n / 10) + [DigitChar(n % 10)]
  }

  /** `str(i)`: a minus sign before the digits of a negative number. */
  function IntToString(i: int): (r: string)
    ensures |r| >= 1
    ensures i >= 0 ==> AllDigits(r)
    ensures i < 0 ==> r[0] == '-' && AllDigits(r[1..])
  {
    if i < 0 then "-" + NatToString(-i) else NatToString(i)
  }

  /** The value of a run of decimal digits, leading zeros allowed. */
  function DigitsValue(s: string): nat
    requires AllDigits(s)
  {
    if |s| == 0 then 0
    else DigitsValue(s[..|s| - 1]) * 10 + (s[|s| - 1] as int - '0' as int)
  }

  lemma {:induction false} DigitsValueOfNatToString(n: nat)
    ensures DigitsValue(NatToString(n)) == n
    decreases n
  {
    var s := NatToString(n);
    if n >= 10 {
      DigitsValueOfNatToString(n / 10);
      assert s[..|s| - 1] == NatToString(n / 10);
    }
  }

  /** Leading zeros do not change the value. */
  lemma {:induction false} DigitsValueLeadingZero(s: string)
    requires AllDigits(s)
    ensures AllDigits("0" + s) && DigitsValue("0" + s) == DigitsValue(s)
    decreases |s|
  {
    var t := "0" + s;
    if |s| > 0 {
      DigitsValueLeadingZero(s[..|s| - 1]);
      assert t[..|t| - 1] == "0" + s[..|s| - 1];
    }
  }

  /** A four-digit year prints as four characters. */
  lemma NatToStringFourDigits(n: nat)
    requires 1000 <= n <= 9999
    ensures |NatToString(n)| == 4
  {
    var a := n / 10;
    var b := a / 10;
    assert 1 <= b / 10 < 10;
    assert |NatToString(b)| == 2;
    assert |NatToString(a)| == 3;
  }

  /** `int(str(n).zfill(width)) == n`. */
  lemma ParseZFilled(n: nat, width: nat)
    ensures ParseInt(ZFill(NatToString(n), width)) == Ok(n)
  {
    ZFillDigits(NatToString(n), width);
    DigitsValueOfNatToString(n);
  }

  /** `s.zfill(width)`: zeros inserted after any leading sign until the
      string is `width` long. */
  function ZFill(s: string, width: nat): (r: string)
    ensures |r| == if |s| >= width then |s| else width
    decreases width - |s|
  {
    if |s| >= width then s
    else if |s| > 0 && (s[0] == '-' || s[0] == '+') then ZFill([s[0]] + "0" + s[1..], width)
    else ZFill("0" + s, width)
  }

  /** Zero-filling the digits of a number keeps them digits with the same
      value. */
  lemma {:induction false} ZFillDigits(s: string, width: nat)
    requires AllDigits(s)
    ensures AllDigits(ZFill(s, width)) && DigitsValue(ZFill(s, width)) == DigitsValue(s)
    decreases width - |s|
  {
    if |s| < width {
      DigitsValueLeadingZero(s);
      ZFillDigits("0" + s, width);
    }
  }

  /** `int(s)` on plain decimal text: an optional sign, then digits;
      anything else is a ValueError. */
  function ParseInt(s: string): (r: Result<int, Error>)
    ensures r.Ok? ==> |s| > 0
    ensures AllDigits(s) && |s| > 0 ==> r == Ok(DigitsValue(s))
    ensures |s| > 1 && s[0] == '-' && AllDigits(s[1..]) ==> r == Ok(0 - DigitsValue(s[1..]))
  {
    if |s| > 0 && (s[0] == '-' || s[0] == '+') then
      var digits := s[1..];
      if |digits| > 0 && AllDigits(digits) then
        Ok(if s[0] == '-' then 0 - DigitsValue(digits) as int else DigitsValue(digits) as int)
      else Err(BadValue("invalid literal for int()"))
    else if |s| > 0 && AllDigits(s) then Ok(DigitsValue(s))
    else Err(BadValue("invalid literal for int()"))
  }

  /** `int(str(i)) == i`. */
  lemma ParseIntOfIntToString(i: int)
    ensures ParseInt(IntToString(i)) == Ok(i)
  {
    if i < 0 {
      ParseIntOfSignedDigits(-i);
      assert IntToString(i) == "-" + NatToString(-i);
    } else {
      ParseIntOfDigits(i);
      assert IntToString(i) == NatToString(i);
    }
  }

  lemma ParseIntOfDigits(n: nat)
    ensures ParseInt(NatToString(n)) == Ok(n)
  {
    var digits := NatToString(n);
    DigitsValueOfNatToString(n);
    assert ParseInt(digits) == Ok(DigitsValue(digits));
  }

  lemma ParseIntOfSignedDigits(n: nat)
    ensures ParseInt("-" + NatToString(n)) == Ok(0 - n)
  {
    var digits := NatToString(n);
    var s := "-" + digits;
    DigitsValueOfNatToString(n);
    assert s[0] == '-' && s[1..] == digits;
  }

  /** `float(s)` on plain decimal text: an optional sign, digits, and an
      optional point followed by more digits, with at least one digit in
      all; anything else is a ValueError. */
  function ParseDecimal(s: string): (r: Result<real, Error>)
    ensures AllDigits(s) && |s| > 0 ==> r == Ok(DigitsValue(s) as real)
  {
    var neg := |s| > 0 && s[0] == '-';
    var body := if |s| > 0 && (s[0] == '-' || s[0] == '+') then s[1..] else s;
    var magnitude := UnsignedDecimal(body);
    if magnitude.Err? then magnitude
    else Ok(if neg then -magnitude.value else magnitude.value)
  }

  /** The digits before the first '.' and after it, if there is one. */
  function UnsignedDecimal(s: string): (r: Result<real, Error>)
    ensures AllDigits(s) && |s| > 0 ==> r == Ok(DigitsValue(s) as real)
  {
    NoPointInDigits(s);
    match Find(s, ".", 0)
    case None =>
      if |s| > 0 && AllDigits(s) then Ok(DigitsValue(s) as real)
      else Err(BadValue("could not convert string to float"))
    case Some(k) =>
      var whole := s[..k];
      var frac := s[k + 1..];
      if |whole| + |frac| > 0 && AllDigits(whole) && AllDigits(frac) then
        Ok(DigitsValue(whole) as real + DigitsValue(frac) as real / Pow10(|frac|) as real)
      else Err(BadValue("could not convert string to float"))
  }

  lemma NoPointInDigits(s: string)
    ensures AllDigits(s) ==> Find(s, ".", 0).None?
  {
    forall k: nat | IsAt(s, ".", k) ensures s[k] == '.' {
      assert s[k..k + 1][0] == s[k];
    }
  }

  function Pow10(n: nat): (r: nat)
    ensures r >= 1
  {
    if n == 0 then 1 else 10 * Pow10(n - 1)
  }
}
