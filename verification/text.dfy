/**
 * String primitives used by the pipeline: substring search (Python's `in`),
 * the pieces `str.split(sep)[0]` and `str.split(sep)[1]`, `str.strip()`,
 * `str.replace` of one character, ASCII lower-casing and `str(n)` for
 * natural numbers.
 */
module Text {
  import opened Wrappers

  /** `pat` occurs in `s` starting at index `i`. */
  predicate OccursAt(s: string, pat: string, i: nat) {
    i + |pat| <= |s| && s[i..i + |pat|] == pat
  }

  /** Python's `pat in s`. */
  predicate Contains(s: string, pat: string) {
    exists i: nat | i <= |s| :: OccursAt(s, pat, i)
  }

  /** The first occurrence of `pat` at or after index `k`. */
  function FindFrom(s: string, pat: string, k: nat): (r: Option<nat>)
    ensures r.Some? ==> k <= r.value && OccursAt(s, pat, r.value)
    ensures r.Some? ==> forall j: nat :: k <= j < r.value ==> !OccursAt(s, pat, j)
    ensures r.None? ==> forall j: nat :: k <= j ==> !OccursAt(s, pat, j)
    decreases |s| - k
  {
    if k + |pat| > |s| then None
    else if s[k..k + |pat|] == pat then Some(k)
    else FindFrom(s, pat, k + 1)
  }

  /** Index of the first occurrence of `pat` in `s` (Python's `str.find`, with `None` for -1). */
  function Find(s: string, pat: string): (r: Option<nat>)
    ensures r.Some? ==> OccursAt(s, pat, r.value)
    ensures r.Some? ==> forall j: nat :: j < r.value ==> !OccursAt(s, pat, j)
    ensures r.None? <==> !Contains(s, pat)
  {
    var r := FindFrom(s, pat, 0);
    assert r.Some? ==> r.value <= |s| && OccursAt(s, pat, r.value);
    r
  }

  /** Occurrences in a suffix are occurrences in the whole text, shifted by the suffix offset. */
  lemma OccursInSuffix(s: string, pat: string, a: nat, k: nat)
    requires a <= |s|
    ensures OccursAt(s[a..], pat, k) <==> OccursAt(s, pat, a + k)
  {
    if a + k + |pat| <= |s| {
      assert s[a..][k..k + |pat|] == s[a + k..a + k + |pat|];
    }
  }

  /** Occurrences in a prefix are the occurrences in the whole text that end inside it. */
  lemma OccursInPrefix(s: string, pat: string, n: nat, k: nat)
    requires n <= |s|
    ensures OccursAt(s[..n], pat, k) <==> k + |pat| <= n && OccursAt(s, pat, k)
  {
    if k + |pat| <= n {
      assert s[..n][k..k + |pat|] == s[k..k + |pat|];
    }
  }

  /** `Find` returns exactly the first occurrence. */
  lemma FindFirst(s: string, pat: string, i: nat)
    requires OccursAt(s, pat, i)
    requires forall j: nat :: j < i ==> !OccursAt(s, pat, j)
    ensures Find(s, pat) == Some(i)
  {
    assert Contains(s, pat);
  }

  /** Python's `s.split(sep)[0]`: everything before the first `sep`, or all of `s`. */
  function SplitFirst(s: string, sep: string): (r: string)
    ensures Find(s, sep).Some? ==> r == s[..Find(s, sep).value]
    ensures Find(s, sep).None? ==> r == s
  {
    match Find(s, sep)
    case Some(i) => s[..i]
    case None => s
  }

  /**
   * Python's `s.split(sep)[1]`: the text between the first and the second
   * `sep`, or to the end of `s` when there is only one.  Python raises
   * `IndexError` when `sep` does not occur; callers only use it after `sep in s`.
   */
  function SplitSecond(s: string, sep: string): (r: string)
    requires Contains(s, sep)
  {
    var i := Find(s, sep).value;
    SplitFirst(s[i + |sep|..], sep)
  }

  /** A text that does not contain `pat` has no substring containing it. */
  lemma NoOccurrenceInSlice(s: string, pat: string, i: nat, j: nat)
    requires i <= j <= |s|
    requires !Contains(s, pat)
    ensures !Contains(s[i..j], pat)
  {
    if Contains(s[i..j], pat) {
      var k: nat :| k <= |s[i..j]| && OccursAt(s[i..j], pat, k);
      forall m | 0 <= m < |pat|
        ensures s[i + k..i + k + |pat|][m] == pat[m]
      {
        assert pat[m] == s[i..j][k..k + |pat|][m] == s[i..j][k + m] == s[i + k + m];
      }
      assert OccursAt(s, pat, i + k);
    }
  }

  /** The prefix before the first `sep` never contains `sep` (when `sep` is non-empty). */
  lemma SplitFirstHasNoSep(s: string, sep: string)
    requires |sep| > 0
    ensures !Contains(SplitFirst(s, sep), sep)
  {
    var r := SplitFirst(s, sep);
    if Contains(r, sep) {
      var k: nat :| k <= |r| && OccursAt(r, sep, k);
      if Find(s, sep).Some? {
        forall m | 0 <= m < |sep|
          ensures s[k..k + |sep|][m] == sep[m]
        {
          assert sep[m] == r[k..k + |sep|][m] == r[k + m] == s[k + m];
        }
        assert OccursAt(s, sep, k);
      }
    }
  }

  /** Characters for which Python's `str.isspace()` holds; `str.strip()` removes them. */
  predicate IsSpace(c: char) {
    || c == ' ' || c == '\t' || c == '\n' || c == '\r'
    || c == '\U{0B}' || c == '\U{0C}'
    || ('\U{1C}' <= c <= '\U{1F}')
    || c == '\U{85}' || c == '\U{A0}' || c == '\U{1680}'
    || ('\U{2000}' <= c <= '\U{200A}')
    || c == '\U{2028}' || c == '\U{2029}' || c == '\U{202F}' || c == '\U{205F}' || c == '\U{3000}'
  }

  /** Number of leading whitespace characters of `s`. */
  function LeadingSpace(s: string): (n: nat)
    ensures n <= |s|
    ensures forall k :: 0 <= k < n ==> IsSpace(s[k])
    ensures n < |s| ==> !IsSpace(s[n])
  {
    if |s| == 0 || !IsSpace(s[0]) then 0 else 1 + LeadingSpace(s[1..])
  }

  /** Number of trailing whitespace characters of `s`. */
  function TrailingSpace(s: string): (n: nat)
    ensures n <= |s|
    ensures forall k :: |s| - n <= k < |s| ==> IsSpace(s[k])
    ensures n < |s| ==> !IsSpace(s[|s| - n - 1])
  {
    if |s| == 0 || !IsSpace(s[|s| - 1]) then 0 else 1 + TrailingSpace(s[..|s| - 1])
  }

  /**
   * Python's `s.strip()`: `s` without its leading and trailing whitespace,
   * given as the slice `s[lo..hi]` that is kept.
   */
  function StripBounds(s: string): (b: (nat, nat))
    ensures b.0 <= b.1 <= |s|
    ensures forall k :: 0 <= k < b.0 ==> IsSpace(s[k])
    ensures forall k :: b.1 <= k < |s| ==> IsSpace(s[k])
    ensures b.0 < b.1 ==> !IsSpace(s[b.0]) && !IsSpace(s[b.1 - 1])
  {
    var lo := LeadingSpace(s);
    if lo == |s| then (lo, lo)
    else
      var t := TrailingSpace(s);
      assert t < |s| - lo;
      (lo, |s| - t)
  }

  /**
   * `s.strip()`: a slice of `s` that drops only whitespace at either end and
   * neither starts nor ends with whitespace.
   */
  function Strip(s: string): (r: string)
    ensures |r| <= |s|
    ensures |r| > 0 ==> !IsSpace(r[0]) && !IsSpace(r[|r| - 1])
    ensures exists lo: nat, hi: nat ::
      && lo <= hi <= |s| && r == s[lo..hi]
      && (forall k :: 0 <= k < lo ==> IsSpace(s[k]))
      && (forall k :: hi <= k < |s| ==> IsSpace(s[k]))
  {
    var b := StripBounds(s);
    assert b.0 <= b.1 <= |s| && s[b.0..b.1] == s[b.0..b.1];
    s[b.0..b.1]
  }

  /** Stripping never introduces an occurrence of a pattern. */
  lemma StripKeepsAbsence(s: string, pat: string)
    requires !Contains(s, pat)
    ensures !Contains(Strip(s), pat)
  {
    var b := StripBounds(s);
    NoOccurrenceInSlice(s, pat, b.0, b.1);
  }

  /** Stripping is idempotent. */
  lemma StripIdempotent(s: string)
    ensures Strip(Strip(s)) == Strip(s)
  {
    var r := Strip(s);
    if |r| > 0 {
      assert LeadingSpace(r) == 0;
      assert TrailingSpace(r) == 0;
    }
  }

  /** Python's `s.replace(from, to)` for single characters. */
  function ReplaceChar(s: string, from: char, to: char): (r: string)
    ensures |r| == |s|
    ensures forall k :: 0 <= k < |s| ==> r[k] == (if s[k] == from then to else s[k])
  {
    seq(|s|, k requires 0 <= k < |s| => if s[k] == from then to else s[k])
  }

  /** ASCII lower-casing (Python's `str.lower()` restricted to A-Z). */
  function Lower(s: string): (r: string)
    ensures |r| == |s|
    ensures forall k :: 0 <= k < |s| ==> r[k] == (if 'A' <= s[k] <= 'Z' then s[k] - 'A' + 'a' else s[k])
  {
    seq(|s|, k requires 0 <= k < |s| => if 'A' <= s[k] <= 'Z' then s[k] - 'A' + 'a' else s[k])
  }

  predicate IsDigit(c: char) { '0' <= c <= '9' }

  /** Decimal digits of a natural number: Python's `str(n)` for `n >= 0`. */
  function NatToString(n: nat): (r: string)
    ensures |r| > 0
    ensures forall k :: 0 <= k < |r| ==> IsDigit(r[k])
    ensures |r| > 1 ==> r[0] != '0'
    ensures DigitsValue(r) == n
  {
    if n < 10 then [('0' as int + n) as char]
    else
      var r := NatToString(n / 10) + [('0' as int + n % 10) as char];
      assert r[..|r| - 1] == NatToString(n / 10);
      r
  }

  /** The number a string of decimal digits denotes (reference for `NatToString`). */
  function DigitsValue(s: string): nat
    requires forall k :: 0 <= k < |s| ==> IsDigit(s[k])
  {
    if |s| == 0 then 0
    else
      assert IsDigit(s[|s| - 1]);
      10 * DigitsValue(s[..|s| - 1]) + (s[|s| - 1] as int - '0' as int)
  }
}
