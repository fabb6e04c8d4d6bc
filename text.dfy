/**
 * The string operations the directive scanner and the cache lookup rely on:
 * Rust's `str::starts_with`, `str::trim` and `u32::to_string`, written out
 * on `seq<char>`.
 */
module Text {

  /** Rust's `char::is_whitespace`: the Unicode White_Space property. */
  predicate IsWhitespace(c: char) {
    ('\t' <= c <= '\r') || c == ' ' || c == '\U{85}' || c == '\U{A0}' || c == '\U{1680}'
    || ('\U{2000}' <= c <= '\U{200A}') || c == '\U{2028}' || c == '\U{2029}'
    || c == '\U{202F}' || c == '\U{205F}' || c == '\U{3000}'
  }

  /** Every character of `s` at an index in `[lo, hi)` is whitespace. */
  predicate WhitespaceBetween(s: string, lo: int, hi: int)
    requires 0 <= lo && hi <= |s|
  {
    forall k :: lo <= k < hi ==> IsWhitespace(s[k])
  }

  predicate AllWhitespace(s: string) {
    WhitespaceBetween(s, 0, |s|)
  }

  /** `s.starts_with(prefix)`: an exact, character-for-character prefix. */
  predicate StartsWith(s: string, prefix: string): (b: bool)
    ensures b <==> |prefix| <= |s| && forall k :: 0 <= k < |prefix| ==> s[k] == prefix[k]
    ensures b ==> s == prefix + s[|prefix|..]
  {
    |prefix| <= |s| && s[..|prefix|] == prefix
  }

  /** Neither end of `s` is a whitespace character. */
  predicate IsTrimmed(s: string) {
    s == [] || (!IsWhitespace(s[0]) && !IsWhitespace(s[|s| - 1]))
  }

  /**
   * `r` is what remains of `s` once the whitespace around it is cut off:
   * `s` is `r` with only whitespace before and after it, and `r` itself
   * neither starts nor ends with whitespace.
   */
  ghost predicate IsTrimOf(r: string, s: string) {
    exists i, j :: TrimmedAt(r, s, i, j)
  }

  /** `r` is `s[i..j]`, and the trim of `s` with whitespace in `s[..i]` and `s[j..]`. */
  predicate TrimmedAt(r: string, s: string, i: int, j: int) {
    0 <= i <= j <= |s| && r == s[i..j] && WhitespaceBetween(s, 0, i)
    && WhitespaceBetween(s, j, |s|) && IsTrimmed(r)
  }

  /** The index of the first non-whitespace character of `s` at or after `i`. */
  function SkipWhitespace(s: string, i: nat): (j: nat)
    requires i <= |s|
    ensures i <= j <= |s| && WhitespaceBetween(s, i, j)
    ensures j < |s| ==> !IsWhitespace(s[j])
    decreases |s| - i
  {
    if i == |s| || !IsWhitespace(s[i]) then i else SkipWhitespace(s, i + 1)
  }

  /**
   * The index just past the last non-whitespace character of `s` before
   * `j`, looking no further back than `lo`.
   */
  function SkipWhitespaceBack(s: string, lo: nat, j: nat): (k: nat)
    requires lo <= j <= |s|
    ensures lo <= k <= j && WhitespaceBetween(s, k, j)
    ensures lo < k ==> !IsWhitespace(s[k - 1])
    decreases j
  {
    if j == lo || !IsWhitespace(s[j - 1]) then j else SkipWhitespaceBack(s, lo, j - 1)
  }

  /** Rust's `str::trim`: drop leading and trailing whitespace. */
  function Trim(s: string): (r: string)
    ensures IsTrimOf(r, s)
    ensures r == [] <==> AllWhitespace(s)
  {
    var i := SkipWhitespace(s, 0);
    var j := SkipWhitespaceBack(s, i, |s|);
    assert TrimmedAt(s[i..j], s, i, j);
    s[i..j]
  }

  /** A trim is empty exactly when the whole string is whitespace. */
  lemma TrimOfEmpty(r: string, s: string)
    requires IsTrimOf(r, s)
    ensures r == [] <==> AllWhitespace(s)
  {
    var i, j :| TrimmedAt(r, s, i, j);
    if r != [] {
      assert r[0] == s[i];
    }
  }

  /**
   * The trim of a string is unique: whatever satisfies `IsTrimOf` is the
   * result of `Trim`.
   */
  lemma TrimUnique(r1: string, r2: string, s: string)
    requires IsTrimOf(r1, s) && IsTrimOf(r2, s)
    ensures r1 == r2
  {
    var i1, j1 :| TrimmedAt(r1, s, i1, j1);
    var i2, j2 :| TrimmedAt(r2, s, i2, j2);
    if r1 == [] || r2 == [] {
      TrimOfEmpty(r1, s);
      TrimOfEmpty(r2, s);
    } else {
      assert r1[0] == s[i1] && r2[0] == s[i2];
      assert !IsWhitespace(s[i1]) && !IsWhitespace(s[i2]);
      assert i1 == i2;
      assert r1[|r1| - 1] == s[j1 - 1] && r2[|r2| - 1] == s[j2 - 1];
      assert !IsWhitespace(s[j1 - 1]) && !IsWhitespace(s[j2 - 1]);
      assert j1 == j2;
    }
  }

  predicate IsDigit(c: char) {
    '0' <= c <= '9'
  }

  predicate AllDigits(s: string) {
    forall i :: 0 <= i < |s| ==> IsDigit(s[i])
  }

  /**
   * The shape `u32::to_string` produces: one or more decimal digits, with
   * no leading zero unless the number is zero itself.
   */
  predicate IsCanonicalDecimal(s: string) {
    |s| >= 1 && AllDigits(s) && (s[0] == '0' ==> |s| == 1)
  }

  function DigitChar(d: nat): (c: char)
    requires d < 10
    ensures IsDigit(c) && c as int - '0' as int == d
  {
    ('0' as int + d) as char
  }

  function DigitValue(c: char): (d: nat)
    requires IsDigit(c)
    ensures d < 10 && DigitChar(d) == c
  {
    c as int - '0' as int
  }

  /** Rust's `to_string` on an offset: its decimal representation. */
  function NatToString(n: nat): (r: string)
    ensures IsCanonicalDecimal(r)
    ensures r[0] == '0' <==> n == 0
  {
    if n < 10 then [DigitChar(n)]
    else NatToString(n / 10) + [DigitChar(n % 10)]
  }

  /** The number a string of decimal digits denotes. */
  function ParseDecimal(s: string): nat
    requires AllDigits(s)
  {
    if s == [] then 0
    else ParseDecimal(s[..|s| - 1]) * 10 + DigitValue(s[|s| - 1])
  }

  /** Reading back the decimal representation of `n` gives `n`. */
  lemma {:induction false} ParseNatToString(n: nat)
    ensures ParseDecimal(NatToString(n)) == n
  {
    var r := NatToString(n);
    if n >= 10 {
      ParseNatToString(n / 10);
      assert r[..|r| - 1] == NatToString(n / 10);
    }
  }

  /** A canonical decimal with a non-zero first digit denotes a positive number. */
  lemma {:induction false} ParsePositive(s: string)
    requires |s| >= 1 && AllDigits(s) && s[0] != '0'
    ensures ParseDecimal(s) > 0
  {
    if |s| > 1 {
      ParsePositive(s[..|s| - 1]);
    }
  }

  /** Every canonical decimal is the representation of the number it denotes. */
  lemma {:induction false} NatToStringOfParse(s: string)
    requires IsCanonicalDecimal(s)
    ensures NatToString(ParseDecimal(s)) == s
  {
    if |s| > 1 {
      var init := s[..|s| - 1];
      var q := ParseDecimal(init);
      var d := DigitValue(s[|s| - 1]);
      ParsePositive(init);
      NatToStringOfParse(init);
      var n := q * 10 + d;
      assert n / 10 == q && n % 10 == d;
      assert s == init + [s[|s| - 1]];
    }
  }

  /** Different offsets have different decimal keys. */
  lemma NatToStringInjective(a: nat, b: nat)
    ensures NatToString(a) == NatToString(b) ==> a == b
  {
    ParseNatToString(a);
    ParseNatToString(b);
  }

  /**
   * The decimal keys are exactly the canonical decimals: a key with a leading
   * zero, a sign or any non-digit is the decimal representation of no offset.
   */
  lemma NatToStringOnto(s: string)
    ensures IsCanonicalDecimal(s) <==> exists n: nat :: NatToString(n) == s
  {
    if IsCanonicalDecimal(s) {
      NatToStringOfParse(s);
    }
  }
}
