/**
 * The ASCII part of the Kotlin string library the app relies on: digits, whitespace,
 * `trim`, `isBlank`, `replace`, case-insensitive `equals`/`contains`, and the decimal
 * rendering of non-negative numbers used by every amount display ("12.34").
 */
module Text {

  /** `Char.isDigit`, restricted to ASCII. */
  predicate IsDigit(c: char) {
    '0' <= c <= '9'
  }

  function DigitValue(c: char): (d: nat)
    requires IsDigit(c)
    ensures d < 10
  {
    (c as int) - ('0' as int)
  }

  function DigitChar(d: nat): (c: char)
    requires d < 10
    ensures IsDigit(c) && DigitValue(c) == d
  {
    (('0' as int) + d) as char
  }

  /** `Char.isWhitespace`, restricted to ASCII: space, TAB..CR, and the separators FS..US. */
  predicate IsWhitespace(c: char) {
    var k := c as int;
    k == 32 || 9 <= k <= 13 || 28 <= k <= 31
  }

  /** `String.isBlank`. */
  predicate IsBlank(s: string) {
    forall i :: 0 <= i < |s| ==> IsWhitespace(s[i])
  }

  predicate AllDigits(s: string) {
    forall i :: 0 <= i < |s| ==> IsDigit(s[i])
  }

  /** `String.replace(c.toString(), "")`. */
  function RemoveChar(s: string, c: char): (r: string)
    ensures c !in r
    ensures forall x :: x in r <==> x in s && x != c
    ensures c !in s ==> r == s
    ensures |r| <= |s|
  {
    if s == [] then []
    else if s[0] == c then RemoveChar(s[1..], c)
    else [s[0]] + RemoveChar(s[1..], c)
  }

  /** `String.filter { it.isDigit() }`. */
  function FilterDigits(s: string): (r: string)
    ensures AllDigits(r)
    ensures |r| <= |s|
    ensures AllDigits(s) ==> r == s
  {
    if s == [] then []
    else if IsDigit(s[0]) then [s[0]] + FilterDigits(s[1..])
    else FilterDigits(s[1..])
  }

  /** The value of a string of decimal digits, most significant first; leading zeros allowed. */
  function DigitsValue(s: string): nat
    requires AllDigits(s)
  {
    if s == [] then 0
    else 10 * DigitsValue(s[..|s| - 1]) + DigitValue(s[|s| - 1])
  }

  lemma DigitsValueAppend(s: string, c: char)
    requires AllDigits(s) && IsDigit(c)
    ensures AllDigits(s + [c])
    ensures DigitsValue(s + [c]) == 10 * DigitsValue(s) + DigitValue(c)
  {
    assert (s + [c])[..|s|] == s;
  }

  function Pow10(k: nat): (p: nat)
    ensures p >= 1
  {
    if k == 0 then 1 else 10 * Pow10(k - 1)
  }

  /** The shortest decimal rendering of `n` (`Long.toString` / `%d` of a non-negative number). */
  function NatToDigits(n: nat): (r: string)
    ensures |r| >= 1 && AllDigits(r)
    ensures DigitsValue(r) == n
    ensures r[0] == '0' ==> n == 0
  {
    if n < 10 then [DigitChar(n)]
    else
      var prefix := NatToDigits(n / 10);
      DigitsValueAppend(prefix, DigitChar(n % 10));
      prefix + [DigitChar(n % 10)]
  }

  /** `n` needs at most `k` digits exactly when it is below 10^k. */
  lemma {:induction false} NatToDigitsLength(n: nat, k: nat)
    requires k >= 1
    ensures |NatToDigits(n)| <= k <==> n < Pow10(k)
  {
    if n >= 10 {
      if k == 1 {
        assert Pow10(1) == 10;
      } else {
        NatToDigitsLength(n / 10, k - 1);
        assert n / 10 < Pow10(k - 1) <==> n < 10 * Pow10(k - 1);
      }
    } else {
      if k > 1 {
        PowGrows(k);
      }
    }
  }

  lemma {:induction false} PowGrows(k: nat)
    requires k >= 1
    ensures Pow10(k) >= 10
  {
    if k > 1 {
      PowGrows(k - 1);
    }
  }

  /** Two decimal digits with a leading zero, `%02d` of a number below 100. */
  function Pad2(m: nat): (r: string)
    requires m < 100
    ensures |r| == 2 && AllDigits(r) && DigitsValue(r) == m
  {
    var r := [DigitChar(m / 10), DigitChar(m % 10)];
    DigitsValueAppend([DigitChar(m / 10)], DigitChar(m % 10));
    assert [DigitChar(m / 10)] + [DigitChar(m % 10)] == r;
    r
  }

  /** The digits of the amount `n` cents without the decimal point: whole units, then two digits of cents. */
  function CentsDigits(n: nat): (r: string)
    ensures AllDigits(r)
    ensures |r| == |NatToDigits(n / 100)| + 2
    ensures DigitsValue(r) == n
  {
    var whole := NatToDigits(n / 100);
    var p := Pad2(n % 100);
    DigitsValueAppend(whole, p[0]);
    DigitsValueAppend(whole + [p[0]], p[1]);
    assert whole + [p[0]] + [p[1]] == whole + p;
    whole + p
  }

  /**
   * Amount `n` in cents as "units.cents": the units without leading zeros, then
   * exactly one '.', then exactly two digits.
   */
  function CentsText(n: nat): (r: string)
    ensures |r| >= 4
    ensures r[|r| - 3] == '.' && IsDigit(r[|r| - 2]) && IsDigit(r[|r| - 1])
    ensures AllDigits(r[..|r| - 3]) && '.' !in r[..|r| - 3]
    ensures r[..|r| - 3] == NatToDigits(n / 100)
  {
    var whole := NatToDigits(n / 100);
    var r := whole + "." + Pad2(n % 100);
    assert r[..|r| - 3] == whole;
    NoPointInDigits(whole);
    r
  }

  /** Stripping the point from a rendered amount leaves digits whose value is the amount. */
  lemma CentsTextWithoutPoint(n: nat)
    ensures RemoveChar(CentsText(n), '.') == CentsDigits(n)
  {
    var whole := NatToDigits(n / 100);
    var p := Pad2(n % 100);
    RemoveCharConcat(whole, "." + p, '.');
    NoPointInDigits(whole);
    PointThenDigits(p);
    assert CentsText(n) == whole + ("." + p);
  }

  lemma PointThenDigits(p: string)
    requires AllDigits(p)
    ensures RemoveChar("." + p, '.') == p
  {
    RemoveCharConcat(".", p, '.');
    NoPointInDigits(p);
  }

  lemma {:induction false} RemoveCharConcat(a: string, b: string, c: char)
    ensures RemoveChar(a + b, c) == RemoveChar(a, c) + RemoveChar(b, c)
  {
    if a != [] {
      assert (a + b)[1..] == a[1..] + b;
      RemoveCharConcat(a[1..], b, c);
    } else {
      assert a + b == b;
    }
  }

  lemma NoPointInDigits(s: string)
    requires AllDigits(s)
    ensures '.' !in s
  {
    forall i | 0 <= i < |s| ensures s[i] != '.' {
      assert IsDigit(s[i]);
    }
  }

  /** ASCII `Char.lowercaseChar`. */
  function ToLower(c: char): char {
    if 'A' <= c <= 'Z' then ((c as int) + 32) as char else c
  }

  /** `String.equals(other, ignoreCase = true)`. */
  predicate EqualsIgnoreCase(a: string, b: string) {
    |a| == |b| && forall i :: 0 <= i < |a| ==> ToLower(a[i]) == ToLower(b[i])
  }

  /** `s.regionMatches(at, q, 0, q.length, ignoreCase = true)`. */
  predicate MatchesAtIgnoreCase(s: string, at: nat, q: string) {
    at + |q| <= |s| && forall j :: 0 <= j < |q| ==> ToLower(s[at + j]) == ToLower(q[j])
  }

  /** `String.contains(other, ignoreCase = true)`. */
  predicate ContainsIgnoreCase(s: string, q: string) {
    exists at: nat :: at <= |s| && MatchesAtIgnoreCase(s, at, q)
  }

  /** A string equal to the query ignoring case also contains it ignoring case. */
  lemma EqualsImpliesContains(s: string, q: string)
    requires EqualsIgnoreCase(s, q)
    ensures ContainsIgnoreCase(s, q)
  {
    assert MatchesAtIgnoreCase(s, 0, q);
  }

  /** `String.trimStart()`. */
  function TrimStart(s: string): string {
    if s != [] && IsWhitespace(s[0]) then TrimStart(s[1..]) else s
  }

  /** `trimStart` drops the leading whitespace and nothing else. */
  lemma {:induction false} TrimStartDrops(s: string)
    ensures var r := TrimStart(s);
      && |r| <= |s| && r == s[|s| - |r|..]
      && (forall k :: 0 <= k < |s| - |r| ==> IsWhitespace(s[k]))
      && (r == [] || !IsWhitespace(r[0]))
  {
    if s != [] && IsWhitespace(s[0]) {
      TrimStartDrops(s[1..]);
      var r := TrimStart(s);
      forall k | 0 <= k < |s| - |r| ensures IsWhitespace(s[k]) {
        if k > 0 {
          assert s[k] == s[1..][k - 1];
        }
      }
    }
  }

  /** `String.trimEnd()`. */
  function TrimEnd(s: string): string {
    if s != [] && IsWhitespace(s[|s| - 1]) then TrimEnd(s[..|s| - 1]) else s
  }

  /** `trimEnd` drops the trailing whitespace and nothing else. */
  lemma {:induction false} TrimEndDrops(s: string)
    ensures var r := TrimEnd(s);
      && |r| <= |s| && r == s[..|r|]
      && (forall k :: |r| <= k < |s| ==> IsWhitespace(s[k]))
      && (r == [] || !IsWhitespace(r[|r| - 1]))
  {
    if s != [] && IsWhitespace(s[|s| - 1]) {
      TrimEndDrops(s[..|s| - 1]);
      var r := TrimEnd(s);
      forall k | |r| <= k < |s| ensures IsWhitespace(s[k]) {
        if k < |s| - 1 {
          assert s[k] == s[..|s| - 1][k];
        }
      }
    }
  }

  /** `String.trim()`: the result is empty exactly for a blank string and is otherwise bounded by non-blanks. */
  function Trim(s: string): (r: string)
    ensures r == [] <==> IsBlank(s)
    ensures r != [] ==> !IsWhitespace(r[0]) && !IsWhitespace(r[|r| - 1])
    ensures |r| <= |s|
  {
    var front := TrimStart(s);
    TrimStartDrops(s);
    TrimEndDrops(front);
    TrimBlankIff(s, front);
    TrimEnd(front)
  }

  lemma TrimBlankIff(s: string, front: string)
    requires front == TrimStart(s)
    ensures TrimEnd(front) == [] <==> IsBlank(s)
  {
    TrimStartDrops(s);
    TrimEndDrops(front);
    var r := TrimEnd(front);
    if r != [] {
      assert front[0] == r[0];
      assert !IsWhitespace(s[|s| - |front|]);
    }
  }
}
