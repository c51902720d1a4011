/**
 * Character and string primitives the handler relies on: the `\s` class of
 * JavaScript regular expressions, ASCII case folding (all that a case-insensitive
 * match of an ASCII pattern can use) and `String.prototype.includes`.
 */
module Text {

  /** The `\s` class: ECMAScript WhiteSpace and LineTerminator code points. */
  predicate IsWhitespace(c: char) {
    c == ' ' || c == '\t' || c == '\n' || c == '\r' || c == '\U{000B}' || c == '\U{000C}'
    || c == '\U{00A0}' || c == '\U{1680}' || ('\U{2000}' <= c <= '\U{200A}')
    || c == '\U{2028}' || c == '\U{2029}' || c == '\U{202F}' || c == '\U{205F}'
    || c == '\U{3000}' || c == '\U{FEFF}'
  }

  predicate IsLowerLetter(c: char) {
    'a' <= c <= 'z'
  }

  /** `c` with an upper-case ASCII letter mapped to its lower-case form. */
  function LowerChar(c: char): char {
    if 'A' <= c <= 'Z' then (c as int + 32) as char else c
  }

  /** `s` lowered letter by letter; this is `toLowerCase` on ASCII text. */
  function Lower(s: string): (r: string)
    ensures |r| == |s|
  {
    if s == [] then [] else [LowerChar(s[0])] + Lower(s[1..])
  }

  /** Lowering works character by character. */
  lemma {:induction false} LowerAt(s: string, k: nat)
    requires k < |s|
    ensures Lower(s)[k] == LowerChar(s[k])
  {
    if k > 0 {
      LowerAt(s[1..], k - 1);
    }
  }

  /** A character that lowers to a lower-case letter is not whitespace. */
  lemma LetterIsNotWhitespace(c: char)
    requires IsLowerLetter(LowerChar(c))
    ensures !IsWhitespace(c)
  {
  }

  /** `t` occurs in `s` starting at index `i`. */
  predicate OccursAt(s: string, t: string, i: int) {
    0 <= i <= |s| - |t| && s[i..i + |t|] == t
  }

  /** `String.prototype.includes`: `t` occurs somewhere in `s`, case-sensitively. */
  predicate Contains(s: string, t: string): (b: bool)
    ensures b ==> |t| <= |s|
    ensures t <= s ==> b
    ensures |t| <= |s| && t == s[|s| - |t|..] ==> b
  {
    assert t <= s ==> OccursAt(s, t, 0);
    assert |t| <= |s| && t == s[|s| - |t|..] ==> OccursAt(s, t, |s| - |t|);
    exists i :: 0 <= i <= |s| && OccursAt(s, t, i)
  }

  /** The character at index `k` of `s` exists and is whitespace. */
  predicate WhitespaceAt(s: string, k: int) {
    0 <= k < |s| && IsWhitespace(s[k])
  }

  /** Every character of `s[a..b]` is whitespace. */
  predicate AllWhitespace(s: string, a: nat, b: nat)
    requires a <= b <= |s|
  {
    forall k :: a <= k < b ==> WhitespaceAt(s, k)
  }

  /**
   * The length of the longest run of whitespace starting at `j`: what a greedy
   * `\s+` (or `\s*`) consumes there.
   */
  function WhitespaceRun(s: string, j: nat): (n: nat)
    requires j <= |s|
    ensures j + n <= |s|
    ensures AllWhitespace(s, j, j + n)
    ensures !WhitespaceAt(s, j + n)
    decreases |s| - j
  {
    if WhitespaceAt(s, j) then 1 + WhitespaceRun(s, j + 1) else 0
  }

  /** A run of whitespace that ends before a non-whitespace character is the longest one. */
  lemma WhitespaceRunUnique(s: string, j: nat, w: nat)
    requires j + w <= |s|
    requires AllWhitespace(s, j, j + w)
    requires !WhitespaceAt(s, j + w)
    ensures WhitespaceRun(s, j) == w
  {
  }

  /** `w` occurs at `b` in `s` up to ASCII letter case (`w` itself is written in lower case). */
  predicate CiWordAt(s: string, b: nat, w: string) {
    b + |w| <= |s| && forall k :: 0 <= k < |w| ==> LowerChar(s[b + k]) == w[k]
  }

  /** The text of a case-insensitive occurrence, lowered, is the word itself. */
  lemma LowerOfCiWord(s: string, b: nat, w: string)
    requires CiWordAt(s, b, w)
    ensures Lower(s[b..b + |w|]) == w
  {
    var t := s[b..b + |w|];
    forall k | 0 <= k < |w|
      ensures Lower(t)[k] == w[k]
    {
      LowerAt(t, k);
    }
  }
}
