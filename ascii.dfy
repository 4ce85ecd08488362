/**
 * ASCII case mapping: the part of JavaScript's `String.prototype.toUpperCase`
 * that HTTP method names use.
 */
module Ascii {

  predicate IsLower(c: char) { 'a' <= c <= 'z' }

  /** The upper-case letter for a lower-case ASCII letter; every other character is kept. */
  function UpperChar(c: char): (u: char)
    ensures !IsLower(u)
    ensures IsLower(c) ==> 'A' <= u <= 'Z' && u as int + 32 == c as int
    ensures !IsLower(c) ==> u == c
  {
    if IsLower(c) then (c as int - 32) as char else c
  }

  /** True when no character of `s` is a lower-case ASCII letter. */
  predicate IsUpper(s: string) {
    forall i :: 0 <= i < |s| ==> !IsLower(s[i])
  }

  /** Two characters are the same letter up to case, stated without UpperChar. */
  predicate SameLetterIgnoringCase(a: char, b: char) {
    a == b
    || (IsLower(a) && b as int + 32 == a as int)
    || (IsLower(b) && a as int + 32 == b as int)
  }

  predicate EqualIgnoringCase(s: string, t: string) {
    |s| == |t| && forall i :: 0 <= i < |s| ==> SameLetterIgnoringCase(s[i], t[i])
  }

  /** Upper-cases every ASCII letter of `s`, character by character. */
  function ToUpper(s: string): (r: string)
    ensures |r| == |s|
    ensures forall i :: 0 <= i < |s| ==> r[i] == UpperChar(s[i])
  {
    if s == [] then [] else [UpperChar(s[0])] + ToUpper(s[1..])
  }

  /** The result of ToUpper is upper case, and it is the same word up to case. */
  lemma ToUpperIsUpper(s: string)
    ensures IsUpper(ToUpper(s))
    ensures EqualIgnoringCase(ToUpper(s), s)
  {
  }

  /** Upper-casing twice is upper-casing once. */
  lemma ToUpperIdempotent(s: string)
    ensures ToUpper(ToUpper(s)) == ToUpper(s)
  {
  }

  /** A string already in upper case is its own upper case. */
  lemma ToUpperOfUpper(s: string)
    requires IsUpper(s)
    ensures ToUpper(s) == s
  {
  }

  /** Matching after ToUpper is exactly case-insensitive matching, in both directions. */
  lemma ToUpperCaseInsensitive(s: string, t: string)
    ensures ToUpper(s) == ToUpper(t) <==> EqualIgnoringCase(s, t)
  {
    if ToUpper(s) == ToUpper(t) {
      SameUpperIsSameLetters(s, t);
    }
    if EqualIgnoringCase(s, t) {
      SameLettersIsSameUpper(s, t);
    }
  }

  lemma SameUpperIsSameLetters(s: string, t: string)
    requires ToUpper(s) == ToUpper(t)
    ensures EqualIgnoringCase(s, t)
  {
    forall i | 0 <= i < |s| ensures SameLetterIgnoringCase(s[i], t[i]) {
      assert UpperChar(s[i]) == ToUpper(s)[i] == ToUpper(t)[i] == UpperChar(t[i]);
    }
  }

  lemma SameLettersIsSameUpper(s: string, t: string)
    requires EqualIgnoringCase(s, t)
    ensures ToUpper(s) == ToUpper(t)
  {
    forall i | 0 <= i < |s| ensures ToUpper(s)[i] == ToUpper(t)[i] {
      assert SameLetterIgnoringCase(s[i], t[i]);
    }
  }

}
