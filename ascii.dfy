/** ASCII case folding, the part of `to_lowercase` that the hybrid-decrypt
    catalogue relies on: 'A'..'Z' become 'a'..'z', every other character is
    kept. */
module Ascii {

  predicate IsUpper(c: char) {
    'A' <= c <= 'Z'
  }

  predicate IsLower(c: char) {
    'a' <= c <= 'z'
  }

  /** Lower-case one character. */
  function ToLowerChar(c: char): (d: char)
    ensures !IsUpper(d)
    ensures d == c || (IsUpper(c) && IsLower(d))
  {
    if IsUpper(c) then (c as int + 32) as char else c
  }

  /** Upper-case one character; the inverse of ToLowerChar on letters. */
  function ToUpperChar(c: char): (d: char)
    ensures !IsLower(d)
    ensures IsLower(c) ==> IsUpper(d) && ToLowerChar(d) == c
    ensures !IsLower(c) ==> d == c
  {
    if IsLower(c) then (c as int - 32) as char else c
  }

  /** Lower-case a string character by character. */
  function ToLower(s: string): (r: string)
    ensures |r| == |s|
    ensures forall i :: 0 <= i < |s| ==> r[i] == ToLowerChar(s[i])
  {
    if s == [] then [] else [ToLowerChar(s[0])] + ToLower(s[1..])
  }

  /** `s` spells `t` letter for letter, each letter in either case. */
  predicate IsCasingOf(s: string, t: string) {
    |s| == |t| && forall i :: 0 <= i < |s| ==> s[i] == t[i] || s[i] == ToUpperChar(t[i])
  }

  predicate AllLower(t: string) {
    forall i :: 0 <= i < |t| ==> IsLower(t[i])
  }

  /** The characters that fold to a lower-case letter are that letter and its
      upper-case form, and nothing else. */
  lemma ToLowerCharIs(c: char, l: char)
    requires IsLower(l)
    ensures ToLowerChar(c) == l <==> c == l || c == ToUpperChar(l)
  {
  }

  /** Comparing the folded string with an all-lower-case word is exactly a
      case-insensitive comparison with that word. */
  lemma {:induction false} ToLowerEqualsIff(s: string, t: string)
    requires AllLower(t)
    ensures ToLower(s) == t <==> IsCasingOf(s, t)
  {
    if |s| == |t| {
      forall i | 0 <= i < |s|
        ensures ToLower(s)[i] == t[i] <==> s[i] == t[i] || s[i] == ToUpperChar(t[i])
      {
        ToLowerCharIs(s[i], t[i]);
      }
      if IsCasingOf(s, t) {
        assert forall i :: 0 <= i < |s| ==> ToLower(s)[i] == t[i];
      }
    }
  }
}
