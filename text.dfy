/**
 * The handful of Python `str` operations the scripts rely on: `isspace`,
 * `strip`, `lower`, the substring test `in`, `endswith`, `replace`, `str(n)`
 * for a natural number, and the code-point order `sorted` uses on strings.
 */
module Text {

  /** Python's `str.isspace` for a single character (the Unicode whitespace set). */
  predicate IsSpace(c: char) {
    || c == ' '
    || ('\t' <= c <= '\r')
    || ('\U{1C}' <= c <= '\U{1F}')
    || c == '\U{85}' || c == '\U{A0}' || c == '\U{1680}'
    || ('\U{2000}' <= c <= '\U{200A}')
    || c == '\U{2028}' || c == '\U{2029}' || c == '\U{202F}' || c == '\U{205F}' || c == '\U{3000}'
  }

  predicate AllSpace(s: string) {
    forall i :: 0 <= i < |s| ==> IsSpace(s[i])
  }

  /** Number of whitespace characters `str.lstrip` removes. */
  function LeadingSpaces(s: string): (n: nat)
    ensures n <= |s|
    ensures forall k :: 0 <= k < n ==> IsSpace(s[k])
    ensures n < |s| ==> !IsSpace(s[n])
  {
    if s == [] || !IsSpace(s[0]) then 0
    else
      var m := LeadingSpaces(s[1..]);
      assert forall k :: 1 <= k < m + 1 ==> s[k] == s[1..][k - 1];
      m + 1
  }

  /** Number of whitespace characters `str.rstrip` removes. */
  function TrailingSpaces(s: string): (n: nat)
    ensures n <= |s|
    ensures forall k :: |s| - n <= k < |s| ==> IsSpace(s[k])
    ensures n < |s| ==> !IsSpace(s[|s| - n - 1])
  {
    if s == [] || !IsSpace(s[|s| - 1]) then 0
    else
      var rest := s[..|s| - 1];
      var m := TrailingSpaces(rest);
      assert forall k :: 0 <= k < |rest| ==> s[k] == rest[k];
      m + 1
  }

  /**
   * Python's `str.strip()`: `s` is the result framed by the whitespace it
   * removed, and the result neither starts nor ends with whitespace.
   */
  function Strip(s: string): (r: string)
    ensures r != [] ==> !IsSpace(r[0]) && !IsSpace(r[|r| - 1])
    ensures LeadingSpaces(s) + |r| <= |s|
    ensures r == s[LeadingSpaces(s)..LeadingSpaces(s) + |r|]
    ensures forall k :: LeadingSpaces(s) + |r| <= k < |s| ==> IsSpace(s[k])
  {
    var a := LeadingSpaces(s);
    if a == |s| then []
    else
      var t := TrailingSpaces(s);
      assert !IsSpace(s[a]);
      s[a..|s| - t]
  }

  /** What `strip` removes on either side is whitespace only. */
  lemma StripRemovesSpace(s: string)
    ensures var a := LeadingSpaces(s);
      var e := a + |Strip(s)|;
      e <= |s| && AllSpace(s[..a]) && AllSpace(s[e..])
  {
    var a := LeadingSpaces(s);
    var e := a + |Strip(s)|;
    var pre, post := s[..a], s[e..];
    assert forall k :: 0 <= k < |pre| ==> pre[k] == s[k];
    assert forall k :: 0 <= k < |post| ==> post[k] == s[e + k];
  }

  /** `s` is `Strip(s)` with what `strip` removed put back on either side. */
  lemma StripDecomposes(s: string)
    ensures var a := LeadingSpaces(s);
      var e := a + |Strip(s)|;
      e <= |s| && s == s[..a] + Strip(s) + s[e..]
  {
    var a := LeadingSpaces(s);
    var r := Strip(s);
    var e := a + |r|;
    assert s[..e] == s[..a] + r;
    assert s == s[..e] + s[e..];
  }

  lemma LeadingSpacesOfPadded(pre: string, rest: string)
    requires AllSpace(pre) && rest != [] && !IsSpace(rest[0])
    ensures LeadingSpaces(pre + rest) == |pre|
  {
    var s := pre + rest;
    assert s[|pre|] == rest[0];
    assert forall k :: 0 <= k < |pre| ==> s[k] == pre[k];
  }

  lemma TrailingSpacesOfPadded(rest: string, post: string)
    requires AllSpace(post) && rest != [] && !IsSpace(rest[|rest| - 1])
    ensures TrailingSpaces(rest + post) == |post|
  {
    var s := rest + post;
    assert s[|rest| - 1] == rest[|rest| - 1];
    assert forall k :: |rest| <= k < |s| ==> s[k] == post[k - |rest|];
  }

  /**
   * Whitespace on both sides of a word is exactly what `strip` removes:
   * the converse of `Strip`'s own decomposition.
   */
  lemma StripPadded(pre: string, word: string, post: string)
    requires AllSpace(pre) && AllSpace(post)
    requires word != [] && !IsSpace(word[0]) && !IsSpace(word[|word| - 1])
    ensures Strip(pre + word + post) == word
  {
    var s := pre + word + post;
    var rest := word + post;
    assert s == pre + rest;
    assert rest[0] == word[0];
    LeadingSpacesOfPadded(pre, rest);
    TrailingSpacesOfPadded(pre + word, post);
    assert s[|pre|..|s| - |post|] == word;
  }

  /** Python's `str.lower()` on one character, for the ASCII letters. */
  function LowerChar(c: char): char {
    if 'A' <= c <= 'Z' then (c as int + 32) as char else c
  }

  function Lower(s: string): (r: string)
    ensures |r| == |s|
    ensures forall i :: 0 <= i < |s| ==> r[i] == LowerChar(s[i])
  {
    seq(|s|, i requires 0 <= i < |s| => LowerChar(s[i]))
  }

  predicate OccursAt(text: string, pat: string, i: nat) {
    i + |pat| <= |text| && text[i..i + |pat|] == pat
  }

  /** Python's `pat in text` on strings. */
  predicate Contains(text: string, pat: string) {
    exists i: nat | i <= |text| :: OccursAt(text, pat, i)
  }

  /** Python's `s.endswith(suffix)`. */
  predicate EndsWith(s: string, suffix: string) {
    |suffix| <= |s| && s[|s| - |suffix|..] == suffix
  }

  /** Python's `s.replace(pat, rep)`: every occurrence, left to right, without overlap. */
  function ReplaceAll(s: string, pat: string, rep: string): string
    requires pat != []
    decreases |s|
  {
    if |s| < |pat| then s
    else if s[..|pat|] == pat then rep + ReplaceAll(s[|pat|..], pat, rep)
    else [s[0]] + ReplaceAll(s[1..], pat, rep)
  }

  /** Python's `str(n)` for a natural number: its decimal digits. */
  function NatToString(n: nat): (r: string)
    ensures r != []
    ensures forall i :: 0 <= i < |r| ==> '0' <= r[i] <= '9'
  {
    if n < 10 then ["0123456789"[n]]
    else NatToString(n / 10) + ["0123456789"[n % 10]]
  }

  /** Python's `a < b` on strings: lexicographic order of code points. */
  predicate StrLess(a: string, b: string) {
    if a == [] then b != []
    else if b == [] then false
    else if a[0] != b[0] then a[0] < b[0]
    else StrLess(a[1..], b[1..])
  }

  lemma {:induction false} StrLessIrreflexive(a: string)
    ensures !StrLess(a, a)
  {
    if a != [] {
      StrLessIrreflexive(a[1..]);
    }
  }

  lemma {:induction false} StrLessTransitive(a: string, b: string, c: string)
    requires StrLess(a, b) && StrLess(b, c)
    ensures StrLess(a, c)
  {
    if a != [] && b != [] && c != [] && a[0] == b[0] && b[0] == c[0] {
      StrLessTransitive(a[1..], b[1..], c[1..]);
    }
  }

  lemma {:induction false} StrLessTotal(a: string, b: string)
    requires a != b
    ensures StrLess(a, b) || StrLess(b, a)
  {
    if a != [] && b != [] && a[0] == b[0] {
      assert a == [a[0]] + a[1..] && b == [b[0]] + b[1..];
      StrLessTotal(a[1..], b[1..]);
    }
  }
}
