/**
  Character and string helpers for the rules the components state on text:
  ASCII case mapping (`toLowerCase`, `toUpperCase`), `startsWith`, the
  character classes `\d` and `[A-Z]` of the validators, and JavaScript
  truthiness of an optional string (`x || ""`).
 */
module Text {
  import opened Wrappers

  function LowerChar(c: char): char {
    if 'A' <= c <= 'Z' then (c as int + 32) as char else c
  }

  function UpperChar(c: char): char {
    if 'a' <= c <= 'z' then (c as int - 32) as char else c
  }

  /** `s.toLowerCase()`, on the ASCII letters. */
  function Lower(s: string): string {
    seq(|s|, i requires 0 <= i < |s| => LowerChar(s[i]))
  }

  /** `s.toUpperCase()`, on the ASCII letters. */
  function Upper(s: string): string {
    seq(|s|, i requires 0 <= i < |s| => UpperChar(s[i]))
  }

  /** `s.startsWith(p)`. */
  predicate StartsWith(s: string, p: string) {
    |p| <= |s| && s[..|p|] == p
  }

  /** The regular-expression class `\d` (ASCII digits only, no `u` flag). */
  predicate IsDigit(c: char) {
    '0' <= c <= '9'
  }

  /** The regular-expression class `[A-Z]`. */
  predicate IsUpperLetter(c: char) {
    'A' <= c <= 'Z'
  }

  predicate AllDigits(s: string) {
    forall i :: 0 <= i < |s| ==> IsDigit(s[i])
  }

  predicate AllUpperLetters(s: string) {
    forall i :: 0 <= i < |s| ==> IsUpperLetter(s[i])
  }

  /** A JavaScript string value is truthy iff it is present and non-empty. */
  predicate Truthy(o: Option<string>) {
    o.Some? && o.value != ""
  }

  /** `o || fallback` on an optional string. */
  function OrElse(o: Option<string>, fallback: string): string {
    if Truthy(o) then o.value else fallback
  }

  /** Lowering twice is lowering once; a lowered string is its own lowering. */
  lemma LowerIdempotent(s: string)
    ensures Lower(Lower(s)) == Lower(s)
  {
  }

  /** Upper-casing leaves no lower-case ASCII letter behind. */
  lemma UpperHasNoLowerLetter(s: string)
    ensures forall i :: 0 <= i < |Upper(s)| ==> !('a' <= Upper(s)[i] <= 'z')
  {
  }
}
