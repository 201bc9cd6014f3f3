/**
 * Text helpers with the semantics of the Python and JavaScript string
 * operations used by the application: `str.strip()`, ASCII lower-casing,
 * `startswith`, the substring test `in`, `str(int)` and `', '.join(...)`.
 */
module Text {
  import opened Wrappers

  /** The characters Python's `str.isspace()` accepts, which `str.strip()` removes. */
  predicate IsSpace(c: char) {
    c == ' ' || ('\t' <= c <= '\r') || ('\U{1C}' <= c <= '\U{1F}') || c == '\U{85}' || c == '\U{A0}'
    || c == '\U{1680}' || ('\U{2000}' <= c <= '\U{200A}') || c == '\U{2028}' || c == '\U{2029}'
    || c == '\U{202F}' || c == '\U{205F}' || c == '\U{3000}'
  }

  /** The index of the first non-whitespace character at or after `i`, or `|s|`. */
  function FirstNonSpace(s: string, i: nat): (n: nat)
    requires i <= |s|
    ensures i <= n <= |s| && (n == |s| || !IsSpace(s[n]))
    ensures forall k :: i <= k < n ==> IsSpace(s[k])
    decreases |s| - i
  {
    if i < |s| && IsSpace(s[i]) then FirstNonSpace(s, i + 1) else i
  }

  /** The index just past the last non-whitespace character before `j`, or 0. */
  function EndNonSpace(s: string, j: nat): (n: nat)
    requires j <= |s|
    ensures n <= j && (n == 0 || !IsSpace(s[n - 1]))
    ensures forall k :: n <= k < j ==> IsSpace(s[k])
  {
    if j > 0 && IsSpace(s[j - 1]) then EndNonSpace(s, j - 1) else j
  }

  /** `s.lstrip()`: drops the leading whitespace and nothing else. */
  function TrimStart(s: string): (r: string)
    ensures |r| <= |s| && r == s[|s| - |r|..]
    ensures r == [] || !IsSpace(r[0])
    ensures forall k :: 0 <= k < |s| - |r| ==> IsSpace(s[k])
  {
    s[FirstNonSpace(s, 0)..]
  }

  /** `s.rstrip()`: drops the trailing whitespace and nothing else. */
  function TrimEnd(s: string): (r: string)
    ensures |r| <= |s| && r == s[..|r|]
    ensures r == [] || !IsSpace(r[|r| - 1])
    ensures forall k :: |r| <= k < |s| ==> IsSpace(s[k])
  {
    s[..EndNonSpace(s, |s|)]
  }

  /** Python's `s.strip()`. */
  function Strip(s: string): string {
    TrimEnd(TrimStart(s))
  }

  /**
   * What `strip()` promises: the result is a slice of the input, it neither
   * starts nor ends with whitespace, and everything cut off is whitespace.
   */
  lemma StripSlice(s: string)
    ensures var r, i := Strip(s), |s| - |TrimStart(s)|;
      i + |r| <= |s| && r == s[i..i + |r|]
        && (forall k :: 0 <= k < i ==> IsSpace(s[k]))
        && (forall k :: i + |r| <= k < |s| ==> IsSpace(s[k]))
    ensures Strip(s) == [] || (!IsSpace(Strip(s)[0]) && !IsSpace(Strip(s)[|Strip(s)| - 1]))
  {
    var i := FirstNonSpace(s, 0);
    var t := s[i..];
    var j := EndNonSpace(t, |t|);
    SliceOfSlice(s, i, j);
  }

  /** The first `j` characters of the suffix from `i` are the slice from `i` to `i + j`. */
  lemma SliceOfSlice(s: string, i: nat, j: nat)
    requires i + j <= |s|
    ensures s[i..][..j] == s[i..i + j]
    ensures forall k :: i + j <= k < |s| ==> s[i..][k - i] == s[k]
  {
  }

  /** Stripping twice is stripping once. */
  lemma StripIdempotent(s: string)
    ensures Strip(Strip(s)) == Strip(s)
  {
    var r := Strip(s);
    StripSlice(s);
    assert FirstNonSpace(r, 0) == 0;
    assert r[0..] == r;
    assert EndNonSpace(r, |r|) == |r|;
    assert r[..|r|] == r;
  }

  /** A string stripped of whitespace is empty exactly when it held only whitespace. */
  lemma StripEmpty(s: string)
    ensures Strip(s) == [] <==> forall k :: 0 <= k < |s| ==> IsSpace(s[k])
  {
    var t := TrimStart(s);
    if t != [] {
      assert !IsSpace(t[0]) && t[0] == s[|s| - |t|];
      assert TrimEnd(t) != [];
    }
  }

  /** JavaScript `toLowerCase` / Python `lower` restricted to ASCII letters. */
  function LowerChar(c: char): (r: char)
    ensures 'A' <= c <= 'Z' ==> 'a' <= r <= 'z'
    ensures !('A' <= c <= 'Z') ==> r == c
  {
    if 'A' <= c <= 'Z' then (c as int + 32) as char else c
  }

  function Lower(s: string): (r: string)
    ensures |r| == |s| && forall k :: 0 <= k < |s| ==> r[k] == LowerChar(s[k])
  {
    seq(|s|, k requires 0 <= k < |s| => LowerChar(s[k]))
  }

  /** `s.startswith(p)`. */
  predicate StartsWith(s: string, p: string) {
    |p| <= |s| && s[..|p|] == p
  }

  /** Python's `p in s` for strings: `p` occurs somewhere in `s`. */
  predicate Contains(s: string, p: string)
    decreases |s|
  {
    StartsWith(s, p) || (s != [] && Contains(s[1..], p))
  }

  /** `Contains` means an occurrence at some offset, and every occurrence counts. */
  lemma {:induction false} ContainsAt(s: string, p: string, i: nat)
    requires i + |p| <= |s| && s[i..i + |p|] == p
    ensures Contains(s, p)
    decreases i
  {
    if i == 0 {
      assert s[..|p|] == p;
    } else {
      assert s[1..][i - 1..i - 1 + |p|] == p;
      ContainsAt(s[1..], p, i - 1);
    }
  }

  /** A string that contains `p + q` contains `p`. */
  lemma {:induction false} ContainsPrefix(s: string, p: string, q: string)
    requires Contains(s, p + q)
    ensures Contains(s, p)
    decreases |s|
  {
    if StartsWith(s, p + q) {
      assert s[..|p|] == (p + q)[..|p|] == p;
    } else {
      ContainsPrefix(s[1..], p, q);
    }
  }

  predicate IsDigit(c: char) { '0' <= c <= '9' }

  predicate AllDigits(s: string) { forall k :: 0 <= k < |s| ==> IsDigit(s[k]) }

  function DigitChar(d: nat): (c: char)
    requires d < 10
    ensures IsDigit(c) && c as int - '0' as int == d
  {
    ('0' as int + d) as char
  }

  function DigitValue(c: char): nat
    requires IsDigit(c)
  {
    c as int - '0' as int
  }

  /** Decimal value of a run of digits, most significant first. */
  function DigitsValue(s: string): nat
    requires AllDigits(s)
  {
    if s == [] then 0 else DigitsValue(s[..|s| - 1]) * 10 + DigitValue(s[|s| - 1])
  }

  /** `str(n)` for a natural number: decimal digits without leading zeros. */
  function NatToString(n: nat): (r: string)
    ensures |r| >= 1 && AllDigits(r)
    ensures r[0] == '0' ==> r == "0"
    decreases n
  {
    if n < 10 then [DigitChar(n)] else NatToString(n / 10) + [DigitChar(n % 10)]
  }

  /** Reading back the digits of `str(n)` gives `n`. */
  lemma {:induction false} NatToStringValue(n: nat)
    ensures DigitsValue(NatToString(n)) == n
    decreases n
  {
    if n >= 10 {
      var r := NatToString(n);
      assert r[..|r| - 1] == NatToString(n / 10);
      NatToStringValue(n / 10);
    }
  }

  /** `str(i)` for an integer, as Python and JavaScript print it. */
  function IntToString(i: int): string {
    if i < 0 then "-" + NatToString(-i) else NatToString(i)
  }

  /** Inverse of `IntToString` on the strings it produces. */
  function ParseInt(s: string): Option<int> {
    if |s| >= 2 && s[0] == '-' && AllDigits(s[1..]) && s[1] != '0' then Some(-(DigitsValue(s[1..]) as int))
    else if |s| >= 1 && AllDigits(s) && (s[0] != '0' || s == "0") then Some(DigitsValue(s))
    else None
  }

  /** `str(n)` of a natural number reads back as that number. */
  lemma ParseNatString(n: nat)
    ensures ParseInt(NatToString(n)) == Some(n)
  {
    var d := NatToString(n);
    NatToStringValue(n);
    assert IsDigit(d[0]);
  }

  /** The minus sign followed by `str(n)` of a positive number reads back as its negation. */
  lemma ParseNegativeString(n: nat)
    requires n > 0
    ensures ParseInt("-" + NatToString(n)) == Some(-(n as int))
  {
    var d := NatToString(n);
    var s := "-" + d;
    NatToStringValue(n);
    assert s[1..] == d;
    assert DigitsValue("0") == 0;
  }

  lemma IntToStringRoundTrip(i: int)
    ensures ParseInt(IntToString(i)) == Some(i)
  {
    if i < 0 {
      ParseNegativeString(-i);
    } else {
      ParseNatString(i);
    }
  }

  /** `str(i)` is injective: different numbers print differently. */
  lemma IntToStringInjective(i: int, j: int)
    requires IntToString(i) == IntToString(j)
    ensures i == j
  {
    IntToStringRoundTrip(i);
    IntToStringRoundTrip(j);
  }

  /** `sep.join(parts)`. */
  function Join(sep: string, parts: seq<string>): string {
    if parts == [] then "" else if |parts| == 1 then parts[0] else parts[0] + sep + Join(sep, parts[1..])
  }

  /** `s.split(sep)` for a one-character separator. */
  function Split(s: string, sep: char): (parts: seq<string>)
    ensures |parts| >= 1
    decreases |s|
  {
    if s == [] then [""]
    else
      var rest := Split(s[1..], sep);
      if s[0] == sep then [""] + rest else [[s[0]] + rest[0]] + rest[1..]
  }

  predicate Free(s: string, c: char) { forall k :: 0 <= k < |s| ==> s[k] != c }

  /** Splitting a separator-free piece followed by a separator and more text. */
  lemma {:induction false} SplitAfter(a: string, sep: char, b: string)
    requires Free(a, sep)
    ensures Split(a + [sep] + b, sep) == [a] + Split(b, sep)
    decreases |a|
  {
    if a == [] {
      assert a + [sep] + b == [sep] + b;
    } else {
      assert (a + [sep] + b)[1..] == a[1..] + [sep] + b;
      SplitAfter(a[1..], sep, b);
      assert [a[0]] + a[1..] == a;
    }
  }

  /** A separator-free string does not split. */
  lemma {:induction false} SplitFree(a: string, sep: char)
    requires Free(a, sep)
    ensures Split(a, sep) == [a]
    decreases |a|
  {
    if a != [] {
      SplitFree(a[1..], sep);
      assert [a[0]] + a[1..] == a;
    }
  }

  /** `s.endswith(p)`. */
  predicate EndsWith(s: string, p: string) {
    |p| <= |s| && s[|s| - |p|..] == p
  }

  /** Two given characters stand side by side somewhere in `s`. */
  predicate HasPair(s: string, c: char, d: char) {
    exists k :: 0 <= k < |s| - 1 && s[k] == c && s[k + 1] == d
  }

  /** `[c, d] in s` is the same as the two characters standing side by side. */
  lemma {:induction false} ContainsPair(s: string, c: char, d: char)
    ensures Contains(s, [c, d]) <==> HasPair(s, c, d)
    decreases |s|
  {
    if |s| >= 2 {
      assert s[..2] == [s[0], s[1]];
    }
    assert StartsWith(s, [c, d]) <==> |s| >= 2 && s[0] == c && s[1] == d;
    if s != [] {
      ContainsPair(s[1..], c, d);
      if HasPair(s[1..], c, d) {
        var k :| 0 <= k < |s[1..]| - 1 && s[1..][k] == c && s[1..][k + 1] == d;
        assert s[k + 1] == c && s[k + 2] == d;
      }
      if HasPair(s, c, d) && !StartsWith(s, [c, d]) {
        var k :| 0 <= k < |s| - 1 && s[k] == c && s[k + 1] == d;
        assert k != 0;
        assert s[1..][k - 1] == c && s[1..][k] == d;
        assert HasPair(s[1..], c, d);
      }
    }
  }
}
