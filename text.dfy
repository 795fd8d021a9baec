/**
 * Text operations of the client: JavaScript's `toLowerCase`/`toUpperCase`, over an ASCII case
 * model, and the regular-expression search `String.prototype.match` performs when given a
 * pattern made of literal characters and `.` wildcards.
 */
module Text {

  function LowerChar(c: char): char {
    if 'A' <= c <= 'Z' then (c as int + 32) as char else c
  }

  function UpperChar(c: char): char {
    if 'a' <= c <= 'z' then (c as int - 32) as char else c
  }

  /** `s.toLowerCase()`: every character lowered, the length kept. */
  function Lower(s: string): (r: string)
    ensures |r| == |s|
    ensures forall i :: 0 <= i < |s| ==> r[i] == LowerChar(s[i])
  {
    if s == [] then [] else [LowerChar(s[0])] + Lower(s[1..])
  }

  /** `s.toUpperCase()`: every character raised, the length kept. */
  function Upper(s: string): (r: string)
    ensures |r| == |s|
    ensures forall i :: 0 <= i < |s| ==> r[i] == UpperChar(s[i])
  {
    if s == [] then [] else [UpperChar(s[0])] + Upper(s[1..])
  }

  lemma LowerConcat(a: string, b: string)
    ensures Lower(a + b) == Lower(a) + Lower(b)
  {
  }

  /** The characters a JavaScript regular expression's `.` does not match. */
  predicate IsLineTerminator(c: char) {
    c == '\n' || c == '\r' || c == '\U{2028}' || c == '\U{2029}'
  }

  /** One pattern character against one text character: `.` is a wildcard, anything else literal. */
  predicate CharMatches(pc: char, c: char) {
    if pc == '.' then !IsLineTerminator(c) else pc == c
  }

  predicate MatchesAt(text: string, pattern: string, i: nat)
    requires i + |pattern| <= |text|
  {
    forall k :: 0 <= k < |pattern| ==> CharMatches(pattern[k], text[i + k])
  }

  /** `text.match(pattern)` is non-null: the pattern matches somewhere in the text. */
  predicate ContainsMatch(text: string, pattern: string): (r: bool)
    ensures r ==> |pattern| <= |text|
    ensures pattern == [] ==> r
  {
    assert pattern == [] ==> MatchesAt(text, pattern, 0);
    exists i: nat | i + |pattern| <= |text| :: MatchesAt(text, pattern, i)
  }

  /** A literal occurrence is a match: `.` in the pattern matches the `.` in the text. */
  lemma {:induction false} LiteralOccurrenceMatches(pre: string, pattern: string, post: string)
    ensures ContainsMatch(pre + pattern + post, pattern)
  {
    var text := pre + pattern + post;
    forall k | 0 <= k < |pattern|
      ensures CharMatches(pattern[k], text[|pre| + k])
    {
      assert text[|pre| + k] == pattern[k];
    }
    assert MatchesAt(text, pattern, |pre|);
  }

  /**
   * A pattern's `.` may stand for any character of the Basic Multilingual Plane but a line
   * terminator in the lowered text. A character beyond it is two UTF-16 code units in JavaScript,
   * which one `.` (no `u` flag) does not cover, so it is excluded. So is U+0130, the one character
   * of that plane whose JavaScript lowercase is two code units (U+0069 U+0307).
   */
  lemma WildcardMatchesAnyCharacter(pattern: string, i: nat, c: char)
    requires i < |pattern| && pattern[i] == '.' && !IsLineTerminator(c) && c as int < 0x1_0000 && c != '\U{0130}'
    ensures ContainsMatch(Lower(pattern[i := c]), Lower(pattern))
  {
    var p, text := Lower(pattern), Lower(pattern[i := c]);
    forall k | 0 <= k < |p| ensures CharMatches(p[k], text[k]) {
      if k != i {
        assert text[k] == p[k];
      }
    }
    assert MatchesAt(text, p, 0);
  }
}
