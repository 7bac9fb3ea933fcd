/**
 * The pieces of the Kotlin/Java text library the core relies on, as they
 * behave on Android: the `\s` class of java.util.regex, `Char.isWhitespace`, `String.trim`,
 * `CharSequence.isBlank` and the decimal text of an `Int`.
 */
module KotlinText {
  import opened Wrappers

  /**
   * `\s` in an Android java.util.regex pattern. Android's regex engine is
   * ICU's, whose `\s` is the Unicode White_Space property: TAB..CR, space,
   * NEL, the no-break spaces and every other Unicode space and separator.
   */
  predicate IsRegexSpace(c: char) {
    || ('\t' <= c <= '\r')
    || c == ' ' || c == '\U{85}' || c == '\U{A0}' || c == '\U{1680}'
    || ('\U{2000}' <= c <= '\U{200A}')
    || c == '\U{2028}' || c == '\U{2029}' || c == '\U{202F}' || c == '\U{205F}' || c == '\U{3000}'
  }

  /**
   * Kotlin's `Char.isWhitespace()` on the JVM: `Character.isWhitespace(c) ||
   * Character.isSpaceChar(c)`, i.e. the ASCII controls TAB..CR and FS..US plus
   * every Unicode space, line and paragraph separator (no-break spaces
   * included), and U+180E MONGOLIAN VOWEL SEPARATOR, which Android's
   * Character class still counts as whitespace.
   */
  predicate IsWhitespace(c: char) {
    || ('\t' <= c <= '\r')
    || ('\U{1C}' <= c <= '\U{1F}')
    || c == ' ' || c == '\U{A0}' || c == '\U{1680}' || c == '\U{180E}'
    || ('\U{2000}' <= c <= '\U{200A}')
    || c == '\U{2028}' || c == '\U{2029}' || c == '\U{202F}' || c == '\U{205F}' || c == '\U{3000}'
  }

  /**
   * What `trim` strips and what `split("\\s+")` splits on differ in exactly
   * six characters: NEL is split on but not trimmed, and the controls FS..US
   * and U+180E are trimmed but not split on.
   */
  lemma RegexSpaceVersusWhitespace(c: char)
    ensures IsWhitespace(c) <==>
      (IsRegexSpace(c) && c != '\U{85}') || ('\U{1C}' <= c <= '\U{1F}') || c == '\U{180E}'
    ensures IsRegexSpace('\U{85}') && !IsWhitespace('\U{85}')
    ensures IsWhitespace('\U{180E}') && !IsRegexSpace('\U{180E}')
  {
  }

  /** Every character of `s` in [lo, hi) is whitespace. */
  ghost predicate BlankBetween(s: string, lo: int, hi: int)
    requires 0 <= lo && hi <= |s|
  {
    forall i :: lo <= i < hi ==> IsWhitespace(s[i])
  }

  /** `CharSequence.isBlank()`: empty or whitespace only. */
  predicate IsBlank(s: string)
  {
    forall i :: 0 <= i < |s| ==> IsWhitespace(s[i])
  }

  /** Index of the first non-whitespace character at or after `i` (|s| if none). */
  function StartIndex(s: string, i: nat): (r: nat)
    requires i <= |s|
    ensures i <= r <= |s| && BlankBetween(s, i, r)
    ensures r == |s| || !IsWhitespace(s[r])
    decreases |s| - i
  {
    if i < |s| && IsWhitespace(s[i]) then StartIndex(s, i + 1) else i
  }

  /** One past the last non-whitespace character before `j`, but not below `lo`. */
  function EndIndex(s: string, lo: nat, j: nat): (r: nat)
    requires lo <= j <= |s|
    ensures lo <= r <= j && BlankBetween(s, r, j)
    ensures r == lo || !IsWhitespace(s[r - 1])
  {
    if lo < j && IsWhitespace(s[j - 1]) then EndIndex(s, lo, j - 1) else j
  }

  /** `r` sits at index `i` of `s`, with only whitespace before and after it. */
  ghost predicate MarginsAt(s: string, r: string, i: int) {
    0 <= i <= |s| - |r| && s[i..i + |r|] == r && BlankBetween(s, 0, i) && BlankBetween(s, i + |r|, |s|)
  }

  /** `r` is `s` without some whitespace-only prefix and suffix. */
  ghost predicate StripsBlankMargins(s: string, r: string) {
    exists i :: MarginsAt(s, r, i)
  }

  /** Kotlin's `String.trim()`: drops leading and trailing whitespace. */
  function Trim(s: string): (r: string)
    ensures StripsBlankMargins(s, r)
    ensures r == [] || (!IsWhitespace(r[0]) && !IsWhitespace(r[|r| - 1]))
  {
    var a := StartIndex(s, 0);
    var e := EndIndex(s, a, |s|);
    assert MarginsAt(s, s[a..e], a);
    s[a..e]
  }

  /** Trimming is determined by its contract: no other infix with blank margins has non-blank ends. */
  lemma TrimUnique(s: string, r: string)
    requires StripsBlankMargins(s, r)
    requires r == [] || (!IsWhitespace(r[0]) && !IsWhitespace(r[|r| - 1]))
    ensures r == Trim(s)
  {
    var t := Trim(s);
    var i :| MarginsAt(s, r, i);
    var j :| MarginsAt(s, t, j);
    assert r == [] ==> BlankBetween(s, 0, |s|) by {
      if r == [] { assert BlankBetween(s, 0, i) && BlankBetween(s, i, |s|); }
    }
    assert t == [] ==> BlankBetween(s, 0, |s|) by {
      if t == [] { assert BlankBetween(s, 0, j) && BlankBetween(s, j, |s|); }
    }
    assert r != [] ==> r[0] == s[i] && r[|r| - 1] == s[i + |r| - 1];
    assert t != [] ==> t[0] == s[j] && t[|t| - 1] == s[j + |t| - 1];
  }

  /** A string with no whitespace at either end is its own trim. */
  lemma TrimKeepsUnpadded(s: string)
    requires s == [] || (!IsWhitespace(s[0]) && !IsWhitespace(s[|s| - 1]))
    ensures Trim(s) == s
  {
    assert s[0..0 + |s|] == s;
    assert MarginsAt(s, s, 0);
    TrimUnique(s, s);
  }

  lemma TrimIdempotent(s: string)
    ensures Trim(Trim(s)) == Trim(s)
  {
    TrimKeepsUnpadded(Trim(s));
  }

  /** A string is blank exactly when trimming empties it. */
  lemma BlankIffTrimsToEmpty(s: string)
    ensures IsBlank(s) <==> Trim(s) == []
  {
    if IsBlank(s) {
      assert MarginsAt(s, [], 0);
      TrimUnique(s, []);
    }
    if Trim(s) == [] {
      var i :| MarginsAt(s, [], i);
      assert BlankBetween(s, 0, i) && BlankBetween(s, i, |s|);
    }
  }

  // ---- Decimal text of an integer (Kotlin string templates on Int) ----

  predicate IsDigit(c: char) { '0' <= c <= '9' }

  function DigitChar(d: nat): (c: char)
    requires d < 10
    ensures IsDigit(c) && DigitValue(c) == d
  {
    ('0' as int + d) as char
  }

  function DigitValue(c: char): nat
    requires IsDigit(c)
  {
    c as int - '0' as int
  }

  predicate AllDigits(s: string) {
    forall i :: 0 <= i < |s| ==> IsDigit(s[i])
  }

  /** Decimal digits of `n`, most significant first, no leading zero. */
  function NatDigits(n: nat): (r: string)
    ensures |r| >= 1 && AllDigits(r)
    ensures |r| > 1 ==> r[0] != '0'
  {
    if n < 10 then [DigitChar(n)] else NatDigits(n / 10) + [DigitChar(n % 10)]
  }

  /** `Int.toString()`: a '-' before the digits of a negative number. */
  function IntText(n: int): string {
    if n < 0 then "-" + NatDigits(-n) else NatDigits(n)
  }

  function ParseDigits(s: string): nat
    requires AllDigits(s)
  {
    if s == [] then 0 else 10 * ParseDigits(s[..|s| - 1]) + DigitValue(s[|s| - 1])
  }

  /** Reads back an optionally negative decimal number; anything else is None. */
  function ParseInt(s: string): Option<int> {
    if |s| >= 2 && s[0] == '-' && AllDigits(s[1..]) then Some(-(ParseDigits(s[1..]) as int))
    else if |s| >= 1 && AllDigits(s) then Some(ParseDigits(s))
    else None
  }

  lemma {:induction false} ParseNatDigits(n: nat)
    ensures ParseDigits(NatDigits(n)) == n
  {
    if n >= 10 {
      var d := NatDigits(n / 10) + [DigitChar(n % 10)];
      assert d[..|d| - 1] == NatDigits(n / 10);
      ParseNatDigits(n / 10);
    }
  }

  /** The decimal text of an integer reads back as that integer. */
  lemma IntTextRoundTrip(n: int)
    ensures ParseInt(IntText(n)) == Some(n)
  {
    if n < 0 {
      var d := NatDigits(-n);
      assert ParseDigits(d) == -n by { ParseNatDigits(-n); }
      var text := "-" + d;
      assert text[0] == '-' && text[1..] == d;
      assert ParseInt(text) == Some(-(ParseDigits(d) as int));
    } else {
      var d := NatDigits(n);
      assert ParseDigits(d) == n by { ParseNatDigits(n); }
      assert IsDigit(d[0]);
      assert ParseInt(d) == Some(ParseDigits(d) as int);
    }
  }
}
