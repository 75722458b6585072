/**
 Case-insensitive matching of a whole string against a literal, as a
 JavaScript regular expression with the `i` flag and without the `u` flag
 does it. Such a regular expression compares characters after ECMAScript's
 Canonicalize operation, which upper-cases a character but keeps it as it
 is whenever upper-casing would turn a non-ASCII character into an ASCII
 one. For patterns made of ASCII letters and digits this is exactly
 ASCII upper-casing of both sides.
 */
module CaseFold {

  function UpperChar(c: char): char {
    if 'a' <= c <= 'z' then (c as int - 32) as char else c
  }

  function Upper(s: string): (r: string)
    ensures |r| == |s|
    ensures forall i :: 0 <= i < |s| ==> r[i] == UpperChar(s[i])
  {
    if s == [] then [] else [UpperChar(s[0])] + Upper(s[1..])
  }

  /** `^literal$` under the `i` flag: the whole of `s` equals `literal` up to case. */
  predicate MatchesIgnoringCase(s: string, literal: string) {
    Upper(s) == Upper(literal)
  }

  /** Two strings match ignoring case exactly when they match character by character. */
  lemma MatchesCharwise(s: string, literal: string)
    ensures MatchesIgnoringCase(s, literal) <==>
            |s| == |literal| && forall i :: 0 <= i < |s| ==> UpperChar(s[i]) == UpperChar(literal[i])
  {
    if |s| == |literal| && forall i :: 0 <= i < |s| ==> UpperChar(s[i]) == UpperChar(literal[i]) {
      assert Upper(s) == Upper(literal);
    }
  }

  /** A lower-case letter in a pattern matches itself and its upper-case form, and nothing else. */
  lemma UpperCharLetter(c: char, letter: char)
    requires 'a' <= letter <= 'z'
    ensures UpperChar(c) == UpperChar(letter) <==> c == letter || c as int == letter as int - 32
  {
  }

  /** A digit in a pattern matches only itself. */
  lemma UpperCharDigit(c: char, digit: char)
    requires '0' <= digit <= '9'
    ensures UpperChar(c) == UpperChar(digit) <==> c == digit
  {
  }
}
