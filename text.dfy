/**
 * String.prototype.trim and String.prototype.toLowerCase, the two string
 * operations the route handlers normalise input with.
 */
module Text {

  /** The code points `trim` removes: ECMAScript's WhiteSpace (tab, vertical tab,
      form feed, ZWNBSP and the space separators of Unicode category Zs) and
      its LineTerminators (LF, CR, LS, PS). U+0009 to U+000D are tab, line feed,
      vertical tab, form feed and carriage return. */
  predicate IsWhitespace(c: char) {
    || ('\t' <= c <= '\r') || c == ' ' || c == '\U{00A0}' || c == '\U{1680}'
    || ('\U{2000}' <= c <= '\U{200A}') || c == '\U{2028}' || c == '\U{2029}'
    || c == '\U{202F}' || c == '\U{205F}' || c == '\U{3000}' || c == '\U{FEFF}'
  }

  predicate AllWhitespace(s: string) {
    forall i :: 0 <= i < |s| ==> IsWhitespace(s[i])
  }

  /** How many whitespace characters `s` starts with: the index of its first
      other character, or its length when there is none. */
  function LeadingWhitespace(s: string): (n: nat)
    ensures n <= |s|
    ensures forall k :: 0 <= k < n ==> IsWhitespace(s[k])
    ensures n < |s| ==> !IsWhitespace(s[n])
    decreases |s|
  {
    if s != [] && IsWhitespace(s[0]) then 1 + LeadingWhitespace(s[1..]) else 0
  }

  /** How many whitespace characters `s` ends with. */
  function TrailingWhitespace(s: string): (n: nat)
    ensures n <= |s|
    ensures forall k :: |s| - n <= k < |s| ==> IsWhitespace(s[k])
    ensures n < |s| ==> !IsWhitespace(s[|s| - 1 - n])
    decreases |s|
  {
    if s != [] && IsWhitespace(s[|s| - 1]) then 1 + TrailingWhitespace(s[..|s| - 1]) else 0
  }

  /** `s.trim()`: `s` without its leading and trailing whitespace. */
  function Trim(s: string): string {
    var i := LeadingWhitespace(s);
    s[i..|s| - TrailingWhitespace(s[i..])]
  }

  /** What trim keeps is the piece of `s` between its leading and trailing
      whitespace. It is empty exactly when `s` is all whitespace, and
      otherwise starts and ends with something else. */
  lemma {:induction false} TrimMeaning(s: string)
    ensures Trim(s) == [] <==> AllWhitespace(s)
    ensures Trim(s) != [] ==> !IsWhitespace(Trim(s)[0]) && !IsWhitespace(Trim(s)[|Trim(s)| - 1])
    ensures exists i :: Surrounds(s, i, Trim(s))
  {
    var i := LeadingWhitespace(s);
    var j := |s| - TrailingWhitespace(s[i..]);
    assert forall k :: j <= k < |s| ==> s[k] == s[i..][k - i];
    assert Surrounds(s, i, s[i..j]);
  }

  /** `s` is `r` with whitespace before it (up to index `i`) and after it. */
  predicate Surrounds(s: string, i: nat, r: string) {
    && i <= |s| - |r| && s[i..i + |r|] == r
    && (forall k :: 0 <= k < i ==> IsWhitespace(s[k]))
    && (forall k :: i + |r| <= k < |s| ==> IsWhitespace(s[k]))
  }

  /** The count of leading whitespace is fixed by where the first other
      character stands. */
  lemma {:induction false} LeadingWhitespaceAt(s: string, n: nat)
    requires n <= |s|
    requires forall k :: 0 <= k < n ==> IsWhitespace(s[k])
    requires n < |s| ==> !IsWhitespace(s[n])
    ensures LeadingWhitespace(s) == n
  {
  }

  /** The count of trailing whitespace is fixed by where the last other
      character stands. */
  lemma {:induction false} TrailingWhitespaceAt(s: string, n: nat)
    requires n <= |s|
    requires forall k :: |s| - n <= k < |s| ==> IsWhitespace(s[k])
    requires n < |s| ==> !IsWhitespace(s[|s| - 1 - n])
    ensures TrailingWhitespace(s) == n
  {
  }

  /** Trimming a trimmed string changes nothing. */
  lemma {:induction false} TrimIdempotent(s: string)
    ensures Trim(Trim(s)) == Trim(s)
  {
    var r := Trim(s);
    TrimMeaning(s);
    LeadingWhitespaceAt(r, 0);
    assert r[0..] == r;
    TrailingWhitespaceAt(r, 0);
  }

  /** A piece surrounded by whitespace that neither starts nor ends with
      whitespace is what trim keeps. */
  lemma {:induction false} TrimFindsPiece(s: string, i: nat, r: string)
    requires Surrounds(s, i, r)
    requires r != [] ==> !IsWhitespace(r[0]) && !IsWhitespace(r[|r| - 1])
    ensures Trim(s) == r
  {
    TrimMeaning(s);
    if r == [] {
      assert AllWhitespace(s);
    } else {
      assert s[i] == r[0];
      LeadingWhitespaceAt(s, i);
      var tail := s[i..];
      assert forall k :: 0 <= k < |tail| ==> tail[k] == s[i + k];
      TrailingWhitespaceAt(tail, |s| - i - |r|);
      assert Trim(s) == s[i..i + |r|];
    }
  }

  /** Whitespace around a string does not change what trim makes of it. */
  lemma {:induction false} TrimIgnoresPadding(w1: string, s: string, w2: string)
    requires AllWhitespace(w1) && AllWhitespace(w2)
    ensures Trim(w1 + s + w2) == Trim(s)
  {
    var x := w1 + s + w2;
    var r := Trim(s);
    TrimMeaning(s);
    var i :| Surrounds(s, i, r);
    assert forall k :: 0 <= k < |w1| ==> x[k] == w1[k];
    assert forall k :: 0 <= k < |s| ==> x[|w1| + k] == s[k];
    assert forall k :: |w1| + |s| <= k < |x| ==> x[k] == w2[k - |w1| - |s|];
    assert x[|w1| + i..|w1| + i + |r|] == r;
    assert Surrounds(x, |w1| + i, r);
    TrimFindsPiece(x, |w1| + i, r);
  }

  predicate IsAsciiUpper(c: char) {
    'A' <= c <= 'Z'
  }

  /** `toLowerCase` on one character, restricted to ASCII letters. */
  function LowerChar(c: char): (r: char)
    ensures !IsAsciiUpper(r)
    ensures IsAsciiUpper(c) ==> r as int == c as int + 32
    ensures !IsAsciiUpper(c) ==> r == c
  {
    if IsAsciiUpper(c) then (c as int + 32) as char else c
  }

  /** `s.toLowerCase()` over ASCII letters. */
  function ToLower(s: string): (r: string)
    ensures |r| == |s|
    ensures forall i :: 0 <= i < |s| ==> r[i] == LowerChar(s[i])
  {
    seq(|s|, i requires 0 <= i < |s| => LowerChar(s[i]))
  }

  /** Lower-casing a lower-cased string changes nothing. */
  lemma {:induction false} ToLowerIdempotent(s: string)
    ensures ToLower(ToLower(s)) == ToLower(s)
  {
  }

  /** Two characters that are equal or are the upper- and lower-case forms of one
      ASCII letter. */
  predicate SameIgnoringCase(x: char, y: char) {
    || x == y
    || (IsAsciiUpper(x) && y as int == x as int + 32)
    || (IsAsciiUpper(y) && x as int == y as int + 32)
  }

  /** Strings that differ at most in the case of their ASCII letters. */
  predicate CaseVariants(a: string, b: string) {
    |a| == |b| && forall i :: 0 <= i < |a| ==> SameIgnoringCase(a[i], b[i])
  }

  /** Case variants lower-case to the same string. */
  lemma {:induction false} CaseVariantsLowerAlike(a: string, b: string)
    requires CaseVariants(a, b)
    ensures ToLower(a) == ToLower(b)
  {
  }

  /** Lower-casing neither creates nor removes whitespace. */
  lemma {:induction false} LowerCharKeepsWhitespace(c: char)
    ensures IsWhitespace(LowerChar(c)) <==> IsWhitespace(c)
  {
  }

  /** Lower-casing leaves the leading and trailing whitespace counts alone. */
  lemma {:induction false} ToLowerKeepsPadding(s: string)
    ensures LeadingWhitespace(ToLower(s)) == LeadingWhitespace(s)
    ensures ToLower(s)[LeadingWhitespace(s)..] == ToLower(s[LeadingWhitespace(s)..])
    ensures TrailingWhitespace(ToLower(s[LeadingWhitespace(s)..])) == TrailingWhitespace(s[LeadingWhitespace(s)..])
  {
    var l := ToLower(s);
    forall k | 0 <= k < |s| ensures IsWhitespace(l[k]) <==> IsWhitespace(s[k]) {
      LowerCharKeepsWhitespace(s[k]);
    }
    var i := LeadingWhitespace(s);
    LeadingWhitespaceAt(l, i);
    TrailingWhitespaceAt(l[i..], TrailingWhitespace(s[i..]));
  }

  /** Trimming and lower-casing can be done in either order. */
  lemma {:induction false} TrimOfLower(s: string)
    ensures Trim(ToLower(s)) == ToLower(Trim(s))
  {
    ToLowerKeepsPadding(s);
  }
}
