/**
 * The Python string operations the router relies on: `str.lower()`, the
 * substring test `kw in s`, `any(kw in s for kw in kws)`, `str.upper()` on
 * provider names, and `len(s.split())` as a word count.
 */
module Text {

  /** Python's `str.isspace()` for a single character. */
  predicate IsSpace(c: char) {
    || ('\t' <= c <= '\r')
    || ('\U{1C}' <= c <= '\U{1F}')
    || c == ' ' || c == '\U{85}' || c == '\U{A0}' || c == '\U{1680}'
    || ('\U{2000}' <= c <= '\U{200A}')
    || c == '\U{2028}' || c == '\U{2029}' || c == '\U{202F}' || c == '\U{205F}' || c == '\U{3000}'
  }

  predicate NoSpace(w: string) {
    forall i :: 0 <= i < |w| ==> !IsSpace(w[i])
  }

  // ---------------------------------------------------------------------
  // Case mapping
  // ---------------------------------------------------------------------

  /** Upper-case letters of ASCII and Latin-1 (U+00C0..U+00DE without the sign U+00D7). */
  predicate IsUpper(c: char) {
    ('A' <= c <= 'Z') || ('\U{C0}' <= c <= '\U{DE}' && c != '\U{D7}')
  }

  predicate IsLowerAscii(c: char) {
    'a' <= c <= 'z'
  }

  /** `str.lower()` on one character: both letter ranges lower by U+0020. */
  function LowerChar(c: char): (r: char)
    ensures !IsUpper(r)
    ensures IsUpper(c) <==> r != c
  {
    if IsUpper(c) then (c as int + 32) as char else c
  }

  function Lower(s: string): (r: string)
    ensures |r| == |s|
    ensures forall i :: 0 <= i < |s| ==> !IsUpper(r[i]) && (r[i] == s[i] || IsUpper(s[i]))
  {
    seq(|s|, i requires 0 <= i < |s| => LowerChar(s[i]))
  }

  /** `str.upper()` on ASCII text. */
  function UpperAscii(s: string): (r: string)
    ensures |r| == |s|
    ensures forall i :: 0 <= i < |s| ==> !IsLowerAscii(r[i])
  {
    seq(|s|, i requires 0 <= i < |s| => if IsLowerAscii(s[i]) then (s[i] as int - 32) as char else s[i])
  }

  /** Lowering twice is lowering once. */
  lemma LowerIdempotent(s: string)
    ensures Lower(Lower(s)) == Lower(s)
  {
  }

  // ---------------------------------------------------------------------
  // Substring tests
  // ---------------------------------------------------------------------

  predicate StartsWith(s: string, prefix: string) {
    |prefix| <= |s| && s[..|prefix|] == prefix
  }

  /** `sub in s`, searched from the left. */
  predicate Contains(s: string, sub: string)
    decreases |s|
  {
    StartsWith(s, sub) || (s != [] && Contains(s[1..], sub))
  }

  /** `sub` occurs in `s` at position `i`. */
  predicate OccursAt(s: string, sub: string, i: int) {
    0 <= i && i + |sub| <= |s| && s[i..i + |sub|] == sub
  }

  /** The search finds `sub` exactly when it occurs at some position. */
  lemma {:induction false} ContainsIffOccurs(s: string, sub: string)
    ensures Contains(s, sub) <==> exists i :: OccursAt(s, sub, i)
    decreases |s|
  {
    assert OccursAt(s, sub, 0) <==> StartsWith(s, sub);
    if s != [] {
      forall i | OccursAt(s, sub, i) && i > 0 ensures OccursAt(s[1..], sub, i - 1) {
        assert s[1..][i - 1..i - 1 + |sub|] == s[i..i + |sub|];
      }
      ContainsIffOccurs(s[1..], sub);
      if Contains(s[1..], sub) {
        var i :| OccursAt(s[1..], sub, i);
        assert s[i + 1..i + 1 + |sub|] == s[1..][i..i + |sub|];
        assert OccursAt(s, sub, i + 1);
      }
    }
  }

  /** A text that contains `sub` still contains it inside a longer text. */
  lemma ContainsInside(prefix: string, s: string, suffix: string, sub: string)
    requires Contains(s, sub)
    ensures Contains(prefix + s + suffix, sub)
  {
    ContainsIffOccurs(s, sub);
    var i :| OccursAt(s, sub, i);
    var t := prefix + s + suffix;
    assert t[|prefix| + i..|prefix| + i + |sub|] == s[i..i + |sub|];
    assert OccursAt(t, sub, |prefix| + i);
    ContainsIffOccurs(t, sub);
  }

  /** `any(kw in s for kw in keywords)`. */
  predicate ContainsAny(s: string, keywords: seq<string>) {
    exists k :: k in keywords && Contains(s, k)
  }

  // ---------------------------------------------------------------------
  // Words: `s.split()` with no separator
  // ---------------------------------------------------------------------

  /** Length of the run of non-whitespace characters that starts `s`. */
  function WordLength(s: string): (n: nat)
    ensures n <= |s|
    ensures forall i :: 0 <= i < n ==> !IsSpace(s[i])
    ensures n < |s| ==> IsSpace(s[n])
  {
    if s == [] || IsSpace(s[0]) then 0 else 1 + WordLength(s[1..])
  }

  /** `s.split()`: the maximal runs of non-whitespace characters, left to right. */
  function Split(s: string): (words: seq<string>)
    ensures forall w :: w in words ==> w != [] && NoSpace(w)
    decreases |s|
  {
    if s == [] then []
    else if IsSpace(s[0]) then Split(s[1..])
    else
      var n := WordLength(s);
      [s[..n]] + Split(s[n..])
  }

  /** `len(s.split())`. */
  function WordCount(s: string): nat {
    |Split(s)|
  }

  /** `" ".join(words)`. */
  function Join(words: seq<string>): string {
    if words == [] then ""
    else if |words| == 1 then words[0]
    else words[0] + " " + Join(words[1..])
  }

  lemma {:induction false} WordLengthOfWord(w: string, rest: string)
    requires NoSpace(w)
    requires rest == [] || IsSpace(rest[0])
    ensures WordLength(w + rest) == |w|
    decreases |w|
  {
    if w != [] {
      assert (w + rest)[1..] == w[1..] + rest;
      WordLengthOfWord(w[1..], rest);
    }
  }

  /** Splitting the space-joined words gives the words back. */
  lemma {:induction false} SplitJoin(words: seq<string>)
    requires forall w :: w in words ==> w != [] && NoSpace(w)
    ensures Split(Join(words)) == words
    decreases |words|
  {
    if words != [] {
      var w := words[0];
      var rest := if |words| == 1 then "" else " " + Join(words[1..]);
      var s := w + rest;
      assert Join(words) == s;
      WordLengthOfWord(w, rest);
      assert s[..|w|] == w;
      assert s[|w|..] == rest;
      assert Split(s) == [w] + Split(rest);
      if |words| > 1 {
        assert forall v :: v in words[1..] ==> v in words;
        SplitJoin(words[1..]);
        SplitSkipsSpace(' ', Join(words[1..]));
      }
    }
  }

  /** Leading whitespace does not change the words. */
  lemma {:induction false} SplitSkipsSpace(c: char, s: string)
    requires IsSpace(c)
    ensures Split([c] + s) == Split(s)
  {
    assert ([c] + s)[1..] == s;
  }

  /** `xs` is `ys` with some elements left out, the rest in the same order. */
  predicate IsSubsequence<T(==)>(xs: seq<T>, ys: seq<T>)
    decreases |ys|
  {
    || xs == []
    || (ys != [] && ((xs[0] == ys[0] && IsSubsequence(xs[1..], ys[1..])) || IsSubsequence(xs, ys[1..])))
  }
}
