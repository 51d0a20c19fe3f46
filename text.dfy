/**
 * String operations of the .NET base library that the core relies on,
 * written out over `seq<char>` with ordinal (character-by-character)
 * comparison.
 */
module Text {
  import opened Wrappers

  /** `s.StartsWith(p)` */
  predicate StartsWith(s: string, p: string) {
    |p| <= |s| && s[..|p|] == p
  }

  /** `s.Contains(t)`: `t` occurs somewhere in `s`. */
  predicate Contains(s: string, t: string)
    decreases |s|
  {
    StartsWith(s, t) || (|s| > 0 && Contains(s[1..], t))
  }

  /** An occurrence of `t` at position `i` of `s`. */
  predicate OccursAt(s: string, t: string, i: int) {
    0 <= i && i + |t| <= |s| && s[i..i + |t|] == t
  }

  /** Every occurrence of `t` in `s` is found by `Contains`. */
  lemma {:induction false} OccursContains(s: string, t: string, i: int)
    requires OccursAt(s, t, i)
    ensures Contains(s, t)
    decreases i
  {
    if i == 0 {
      assert s[..|t|] == s[0..|t|];
    } else {
      assert s[1..][i - 1..i - 1 + |t|] == s[i..i + |t|];
      OccursContains(s[1..], t, i - 1);
    }
  }

  /** `Contains` holds only when some position holds an occurrence of `t`. */
  lemma {:induction false} ContainsOccurs(s: string, t: string) returns (i: int)
    requires Contains(s, t)
    ensures OccursAt(s, t, i)
    decreases |s|
  {
    if StartsWith(s, t) {
      i := 0;
      assert s[0..|t|] == s[..|t|];
    } else {
      var j := ContainsOccurs(s[1..], t);
      i := j + 1;
      assert s[1..][j..j + |t|] == s[i..i + |t|];
    }
  }

  /** `Contains` is exactly "some position of `s` holds an occurrence of `t`". */
  lemma ContainsIffOccurs(s: string, t: string)
    ensures Contains(s, t) <==> exists i :: OccursAt(s, t, i)
  {
    if Contains(s, t) {
      var i := ContainsOccurs(s, t);
    }
    forall i | OccursAt(s, t, i) ensures Contains(s, t) {
      OccursContains(s, t, i);
    }
  }

  /** A string lacking one of `t`'s characters does not contain `t`. */
  lemma MissingCharNotContains(s: string, t: string, ch: char)
    requires ch in t && ch !in s
    ensures !Contains(s, t)
  {
    var j :| 0 <= j < |t| && t[j] == ch;
    forall i ensures !OccursAt(s, t, i) {
      if 0 <= i && i + |t| <= |s| {
        assert s[i..i + |t|][j] == s[i + j] != ch;
      }
    }
    ContainsIffOccurs(s, t);
  }

  /**
   * `s.Replace(pat, rep)`: every occurrence of `pat`, found scanning from
   * left to right without overlap, is replaced by `rep`.
   */
  function ReplaceAll(s: string, pat: string, rep: string): string
    requires pat != []
    decreases |s|
  {
    if |s| < |pat| then s
    else if StartsWith(s, pat) then rep + ReplaceAll(s[|pat|..], pat, rep)
    else [s[0]] + ReplaceAll(s[1..], pat, rep)
  }

  /** Replacing a string that does not occur changes nothing. */
  lemma {:induction false} ReplaceAbsent(s: string, pat: string, rep: string)
    requires pat != [] && !Contains(s, pat)
    ensures ReplaceAll(s, pat, rep) == s
    decreases |s|
  {
    if |s| >= |pat| {
      ReplaceAbsent(s[1..], pat, rep);
      assert [s[0]] + s[1..] == s;
    }
  }

  /** An occurrence at the front is replaced and the scan resumes after it. */
  lemma ReplaceFront(c: string, pat: string, rep: string)
    requires pat != []
    ensures ReplaceAll(pat + c, pat, rep) == rep + ReplaceAll(c, pat, rep)
  {
    var s := pat + c;
    assert s[..|pat|] == pat;
    assert s[|pat|..] == c;
  }

  /** A string shorter than the pattern is left as it is. */
  lemma {:induction false} ShortNotContains(s: string, t: string)
    requires |s| < |t|
    ensures !Contains(s, t)
    decreases |s|
  {
    if |s| > 0 {
      ShortNotContains(s[1..], t);
    }
  }

  /** A lone occurrence at the front: the rest is copied unchanged. */
  lemma ReplaceAtFront(c: string, pat: string, rep: string)
    requires pat != [] && !Contains(c, pat)
    ensures ReplaceAll(pat + c, pat, rep) == rep + c
  {
    ReplaceFront(c, pat, rep);
    ReplaceAbsent(c, pat, rep);
  }

  /** Upper-casing of one character (invariant culture, ASCII letters). */
  function UpperChar(ch: char): char {
    if 'a' <= ch <= 'z' then (ch as int - 32) as char else ch
  }

  /** `s.ToUpperInvariant()`, restricted to ASCII letters. */
  function Upper(s: string): (r: string)
    ensures |r| == |s|
    ensures forall i :: 0 <= i < |s| ==> r[i] == UpperChar(s[i])
  {
    seq(|s|, i requires 0 <= i < |s| => UpperChar(s[i]))
  }

  /** `s.Contains(t, StringComparison.InvariantCultureIgnoreCase)`. */
  predicate ContainsIgnoreCase(s: string, t: string) {
    Contains(Upper(s), Upper(t))
  }

  /** Case-insensitive containment does not depend on the case of either side. */
  lemma ContainsIgnoreCaseOfUpper(s: string, t: string)
    ensures ContainsIgnoreCase(Upper(s), t) == ContainsIgnoreCase(s, t)
    ensures ContainsIgnoreCase(s, Upper(t)) == ContainsIgnoreCase(s, t)
  {
    assert Upper(Upper(s)) == Upper(s);
    assert Upper(Upper(t)) == Upper(t);
  }

  /** `s.Split(sep)`: the pieces of `s` between occurrences of `sep`. */
  function Split(s: string, sep: char): (r: seq<string>)
    ensures |r| >= 1
    decreases |s|
  {
    if s == [] then [[]]
    else
      var rest := Split(s[1..], sep);
      if s[0] == sep then [[]] + rest
      else [[s[0]] + rest[0]] + rest[1..]
  }

  /** A string piece that holds no separator. */
  predicate Free(s: string, sep: char) {
    forall i :: 0 <= i < |s| ==> s[i] != sep
  }

  /** Splitting after a separator-free piece yields that piece first. */
  lemma {:induction false} SplitAfter(a: string, sep: char, rest: string)
    requires Free(a, sep)
    ensures Split(a + [sep] + rest, sep) == [a] + Split(rest, sep)
    decreases |a|
  {
    var s := a + [sep] + rest;
    if a == [] {
      assert s[1..] == rest;
    } else {
      assert s[1..] == a[1..] + [sep] + rest;
      SplitAfter(a[1..], sep, rest);
      assert [a[0]] + a[1..] == a;
    }
  }

  /** Splitting a separator-free string yields that string alone. */
  lemma {:induction false} SplitFree(a: string, sep: char)
    requires Free(a, sep)
    ensures Split(a, sep) == [a]
    decreases |a|
  {
    if a != [] {
      SplitFree(a[1..], sep);
      assert [a[0]] + a[1..] == a;
    }
  }

  // ---------------------------------------------------------------------
  // Decimal rendering of integers: `int.ToString()`.

  function DigitChar(d: nat): char
    requires d < 10
  {
    ('0' as int + d) as char
  }

  predicate IsDigit(ch: char) {
    '0' <= ch <= '9'
  }

  function DigitValue(ch: char): nat
    requires IsDigit(ch)
  {
    ch as int - '0' as int
  }

  predicate AllDigits(s: string) {
    forall i :: 0 <= i < |s| ==> IsDigit(s[i])
  }

  /** The decimal digits of `n`, most significant first, no leading zeros. */
  function NatDigits(n: nat): (r: string)
    ensures |r| >= 1 && AllDigits(r)
    decreases n
  {
    if n < 10 then [DigitChar(n)] else NatDigits(n / 10) + [DigitChar(n % 10)]
  }

  /** The number a string of digits denotes. */
  function DigitsValue(s: string): nat
    requires AllDigits(s)
    decreases |s|
  {
    if s == [] then 0 else DigitsValue(s[..|s| - 1]) * 10 + DigitValue(s[|s| - 1])
  }

  /** `n.ToString()` rendered with "-" as the negative sign (the current culture may use another). */
  function DecimalString(n: int): string {
    if n < 0 then "-" + NatDigits(-n) else NatDigits(n)
  }

  /** Reads a decimal string back (digits after an optional "-"): the inverse `DecimalString` is proved against. */
  function ParseDecimal(s: string): Option<int> {
    if |s| > 0 && s[0] == '-' && |s| > 1 && AllDigits(s[1..]) then (var v: int := DigitsValue(s[1..]); Some(-v))
    else if |s| > 0 && AllDigits(s) then Some(DigitsValue(s))
    else None
  }

  lemma {:induction false} NatDigitsRoundTrip(n: nat)
    ensures DigitsValue(NatDigits(n)) == n
    decreases n
  {
    if n >= 10 {
      var s := NatDigits(n);
      NatDigitsRoundTrip(n / 10);
      assert s[..|s| - 1] == NatDigits(n / 10);
    }
  }

  /** `ToString` loses nothing: parsing its output gives the number back. */
  lemma DecimalRoundTrip(n: int)
    ensures ParseDecimal(DecimalString(n)) == Some(n)
  {
    var s := DecimalString(n);
    if n < 0 {
      assert s[0] == '-' && s[1..] == NatDigits(-n);
      NatDigitsRoundTrip(-n);
    } else {
      assert s == NatDigits(n) && IsDigit(s[0]);
      NatDigitsRoundTrip(n);
    }
  }
}
