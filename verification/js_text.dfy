/**
 The string operations of the JavaScript runtime that the handlers rely on:
 `String.prototype.trim`, `startsWith`, and the whitespace class shared by
 `trim` and the regular-expression escape `\s`.
 */
module JsText {

  /** A WhiteSpace or LineTerminator code point of ECMAScript (sections 12.2
      and 12.3 of ECMA-262). `trim` removes exactly these, and `\s` matches
      exactly these. */
  predicate IsWhiteSpace(c: char) {
    || c == '\t' || c == '\n' || c == '\U{000B}' || c == '\U{000C}' || c == '\r'
    || c == ' ' || c == '\U{00A0}' || c == '\U{1680}'
    || ('\U{2000}' <= c <= '\U{200A}')
    || c == '\U{2028}' || c == '\U{2029}' || c == '\U{202F}' || c == '\U{205F}'
    || c == '\U{3000}' || c == '\U{FEFF}'
  }

  predicate AllWhiteSpace(s: string) {
    forall i :: 0 <= i < |s| ==> IsWhiteSpace(s[i])
  }

  /** Neither end of `s` is whitespace: the shape `trim` produces. */
  predicate Trimmed(s: string) {
    s == [] || (!IsWhiteSpace(s[0]) && !IsWhiteSpace(s[|s| - 1]))
  }

  predicate StartsWith(s: string, prefix: string) {
    |prefix| <= |s| && s[..|prefix|] == prefix
  }

  predicate EndsWith(s: string, suffix: string) {
    |suffix| <= |s| && s[|s| - |suffix|..] == suffix
  }

  /** Length of the longest all-whitespace prefix of `s`. */
  function LeadingWhiteSpace(s: string): (n: nat)
    ensures n <= |s|
    ensures AllWhiteSpace(s[..n])
    ensures n < |s| ==> !IsWhiteSpace(s[n])
  {
    if |s| == 0 || !IsWhiteSpace(s[0]) then 0
    else
      var k := LeadingWhiteSpace(s[1..]);
      assert s[1..][..k] == s[1..k + 1];
      1 + k
  }

  /** Length of the longest all-whitespace suffix of `s`. */
  function TrailingWhiteSpace(s: string): (n: nat)
    ensures n <= |s|
    ensures AllWhiteSpace(s[|s| - n..])
    ensures n < |s| ==> !IsWhiteSpace(s[|s| - n - 1])
  {
    if |s| == 0 || !IsWhiteSpace(s[|s| - 1]) then 0
    else
      var k := TrailingWhiteSpace(s[..|s| - 1]);
      assert s[..|s| - 1][|s| - 1 - k..] == s[|s| - 1 - k..|s| - 1];
      1 + k
  }

  /** `s.trim()`: drop the leading and the trailing whitespace. The result is
      the slice of `s` left between two all-whitespace ends. */
  function Trim(s: string): (r: string)
    ensures Trimmed(r)
    ensures exists i, j :: 0 <= i <= j <= |s| && r == s[i..j] && AllWhiteSpace(s[..i]) && AllWhiteSpace(s[j..])
  {
    var i := LeadingWhiteSpace(s);
    var t := s[i..];
    var j := i + |t| - TrailingWhiteSpace(t);
    assert t[..|t| - TrailingWhiteSpace(t)] == s[i..j];
    assert t[|t| - TrailingWhiteSpace(t)..] == s[j..];
    assert i == |s| ==> s[..i] == s && s[j..] == [];
    s[i..j]
  }

  /** A whitespace prefix followed by a text that does not begin with
      whitespace is measured exactly. */
  lemma {:induction false} LeadingWhiteSpaceOf(w: string, r: string)
    requires AllWhiteSpace(w)
    requires r == [] || !IsWhiteSpace(r[0])
    ensures LeadingWhiteSpace(w + r) == |w|
  {
    if w != [] {
      assert (w + r)[1..] == w[1..] + r;
      LeadingWhiteSpaceOf(w[1..], r);
    } else {
      assert w + r == r;
    }
  }

  lemma {:induction false} TrailingWhiteSpaceOf(r: string, w: string)
    requires AllWhiteSpace(w)
    requires r == [] || !IsWhiteSpace(r[|r| - 1])
    ensures TrailingWhiteSpace(r + w) == |w|
  {
    if w != [] {
      assert (r + w)[..|r + w| - 1] == r + w[..|w| - 1];
      TrailingWhiteSpaceOf(r, w[..|w| - 1]);
    } else {
      assert r + w == r;
    }
  }

  /** `trim` is determined by its contract: whenever `s` splits into
      whitespace, a trimmed core, and whitespace, `trim` returns that core. */
  lemma TrimOfPadded(w1: string, r: string, w2: string)
    requires AllWhiteSpace(w1) && AllWhiteSpace(w2) && Trimmed(r)
    ensures Trim(w1 + r + w2) == r
  {
    var s := w1 + r + w2;
    if r == [] {
      assert s == (w1 + w2) + [];
      assert AllWhiteSpace(w1 + w2);
      LeadingWhiteSpaceOf(w1 + w2, []);
      assert s[|s|..] == [];
    } else {
      assert s == w1 + (r + w2);
      LeadingWhiteSpaceOf(w1, r + w2);
      assert s[|w1|..] == r + w2;
      TrailingWhiteSpaceOf(r, w2);
      assert (r + w2)[..|r|] == r;
    }
  }

  /** A string with no whitespace at either end is left alone by `trim`. */
  lemma TrimKeepsTrimmed(s: string)
    requires Trimmed(s)
    ensures Trim(s) == s
  {
    assert [] + s + [] == s;
    TrimOfPadded([], s, []);
  }

  lemma TrimIdempotent(s: string)
    ensures Trim(Trim(s)) == Trim(s)
  {
    TrimKeepsTrimmed(Trim(s));
  }
}
