/** The three string operations the tick relies on: upper-casing the action,
    lower-casing the item name and searching it for a word.

    Case mapping is modelled only as far as it can change the outcome of the
    comparisons the tick makes. The action is compared with keywords made of
    ASCII capitals and '_'; the characters whose upper case is a single such
    character are the ASCII lower-case letters, the dotless i (U+0131, to 'I')
    and the long s (U+017F, to 'S'). The characters whose upper case is
    several ASCII capitals (sharp s to "SS", the ligatures to "FF", "FI",
    "FL", "FFI", "FFL", "ST") never yield a keyword, since no keyword holds
    those pairs. Every other character is left as it is. The item name is
    searched for ASCII lower-case words, and only ASCII capitals lower-case
    to those letters. */
module Strings {

  function UpperChar(c: char): char
  {
    if 'a' <= c <= 'z' then (c as int - 32) as char
    else if c == '\U{0131}' then 'I'
    else if c == '\U{017F}' then 'S'
    else c
  }

  function LowerChar(c: char): char
  {
    if 'A' <= c <= 'Z' then (c as int + 32) as char else c
  }

  /** The string upper-cased character by character. */
  function Upper(s: string): (r: string)
    ensures |r| == |s|
    ensures forall i :: 0 <= i < |s| ==> r[i] == UpperChar(s[i])
  {
    if s == [] then [] else [UpperChar(s[0])] + Upper(s[1..])
  }

  /** The string lower-cased character by character. */
  function Lower(s: string): (r: string)
    ensures |r| == |s|
    ensures forall i :: 0 <= i < |s| ==> r[i] == LowerChar(s[i])
  {
    if s == [] then [] else [LowerChar(s[0])] + Lower(s[1..])
  }

  /** `sub` appears in `s` starting at position `i`. */
  predicate OccursAt(s: string, sub: string, i: nat)
  {
    i + |sub| <= |s| && s[i..i + |sub|] == sub
  }

  lemma OccursShift(s: string, sub: string)
    requires |s| > 0
    ensures forall i: nat :: OccursAt(s[1..], sub, i) <==> OccursAt(s, sub, i + 1)
  {
  }

  /** Substring search: true exactly when `sub` occurs somewhere in `s`. */
  function Contains(s: string, sub: string): (b: bool)
    ensures b <==> exists i: nat :: OccursAt(s, sub, i)
    decreases |s|
  {
    if |s| < |sub| then
      false
    else if s[..|sub|] == sub then
      assert OccursAt(s, sub, 0);
      true
    else
      OccursShift(s, sub);
      assert !OccursAt(s, sub, 0);
      assert forall i: nat :: OccursAt(s, sub, i) ==> i > 0 && OccursAt(s[1..], sub, i - 1);
      Contains(s[1..], sub)
  }

  /** A capital ASCII letter or the underscore: the characters of the action
      keywords. */
  predicate IsKeywordChar(c: char)
  {
    'A' <= c <= 'Z' || c == '_'
  }

  /** Upper-casing leaves a keyword as it is. */
  lemma UpperFixesKeyword(k: string)
    requires forall i :: 0 <= i < |k| ==> IsKeywordChar(k[i])
    ensures Upper(k) == k
  {
  }

  /** Any mix of upper- and lower-case letters spells a keyword once upper-cased,
      which is what makes the comparisons case-insensitive. */
  lemma AnyCasingMatches(s: string, k: string)
    requires forall i :: 0 <= i < |k| ==> IsKeywordChar(k[i])
    requires |s| == |k|
    requires forall i :: 0 <= i < |s| ==> s[i] == k[i] || s[i] == LowerChar(k[i])
    ensures Upper(s) == k
  {
  }

  /** Upper-casing twice is the same as upper-casing once. */
  lemma UpperIdempotent(s: string)
    ensures Upper(Upper(s)) == Upper(s)
  {
  }
}
