/**
  The input filters of the visitor form (watchman dashboard) and the
  sign-up form. Each filter tests the new value of a field against a
  regular expression and keeps the old value when the test fails, so a
  field only ever holds accepted values.

  - phone number: `^\d{0,10}$`
  - apartment (flat) number: `^\d{0,5}$`
  - vehicle plate, on the upper-cased input: two letters, two digits, two
    letters, four digits, partially typed (four alternatives, plus "").
 */
module Validators {
  import opened Text

  /** `/^\d{0,n}$/.test(s)` */
  predicate DigitsUpTo(s: string, n: nat) {
    |s| <= n && AllDigits(s)
  }

  const PhoneDigits: nat := 10
  const FlatDigits: nat := 5

  predicate PhoneAccepts(s: string) { DigitsUpTo(s, PhoneDigits) }
  predicate FlatAccepts(s: string) { DigitsUpTo(s, FlatDigits) }

  /** An `onChange` handler that filters: the new value if accepted, otherwise the old one. */
  function Filtered(current: string, input: string, accepts: string -> bool): (r: string)
    ensures accepts(input) ==> r == input
    ensures !accepts(input) ==> r == current
  {
    if accepts(input) then input else current
  }

  /** The phone field keeps only values of at most 10 digits. */
  function OnPhoneChange(current: string, input: string): (r: string)
    ensures PhoneAccepts(current) ==> PhoneAccepts(r)
    ensures r == input <==> (PhoneAccepts(input) || input == current)
    ensures r != input ==> r == current
  {
    Filtered(current, input, PhoneAccepts)
  }

  /** The apartment field keeps only values of at most 5 digits. */
  function OnFlatChange(current: string, input: string): (r: string)
    ensures FlatAccepts(current) ==> FlatAccepts(r)
    ensures r == input <==> (FlatAccepts(input) || input == current)
    ensures r != input ==> r == current
  {
    Filtered(current, input, FlatAccepts)
  }

  // ---------------------------------------------------------------------
  // Vehicle plate.

  /** The four regular expressions of the plate field, or the empty value, as written. */
  predicate PlateRegexes(v: string) {
    || (|v| <= 2 && AllUpperLetters(v))
    || (2 <= |v| <= 4 && AllUpperLetters(v[..2]) && AllDigits(v[2..]))
    || (4 <= |v| <= 6 && AllUpperLetters(v[..2]) && AllDigits(v[2..4]) && AllUpperLetters(v[4..]))
    || (6 <= |v| <= 10 && AllUpperLetters(v[..2]) && AllDigits(v[2..4]) && AllUpperLetters(v[4..6]) && AllDigits(v[6..]))
    || v == ""
  }

  datatype CharClass = Letter | Digit

  /** The plate template: 2 letters, 2 digits, 2 letters, 4 digits. */
  const Template: seq<CharClass> := [Letter, Letter, Digit, Digit, Letter, Letter, Digit, Digit, Digit, Digit]

  predicate InClass(k: CharClass, c: char) {
    match k
    case Letter => IsUpperLetter(c)
    case Digit => IsDigit(c)
  }

  /** `v` is a prefix of some complete plate: it follows the template position by position. */
  predicate TemplatePrefix(v: string) {
    |v| <= |Template| && forall i :: 0 <= i < |v| ==> InClass(Template[i], v[i])
  }

  /** The regular expressions accept exactly the prefixes of the template. */
  lemma PlateAcceptsTemplatePrefixes(v: string)
    ensures PlateRegexes(v) <==> TemplatePrefix(v)
  {
    if TemplatePrefix(v) {
      if |v| <= 2 {
        assert AllUpperLetters(v);
      } else if |v| <= 4 {
        assert AllUpperLetters(v[..2]) && AllDigits(v[2..]);
      } else if |v| <= 6 {
        assert AllUpperLetters(v[..2]) && AllDigits(v[2..4]) && AllUpperLetters(v[4..]);
      } else {
        assert AllUpperLetters(v[..2]) && AllDigits(v[2..4]) && AllUpperLetters(v[4..6]) && AllDigits(v[6..]);
      }
    }
    if PlateRegexes(v) {
      forall i | 0 <= i < |v| ensures InClass(Template[i], v[i]) {
        if |v| <= 2 && AllUpperLetters(v) {
        } else if 2 <= |v| <= 4 && AllUpperLetters(v[..2]) && AllDigits(v[2..]) {
          if i >= 2 { assert v[2..][i - 2] == v[i]; } else { assert v[..2][i] == v[i]; }
        } else if 4 <= |v| <= 6 && AllUpperLetters(v[..2]) && AllDigits(v[2..4]) && AllUpperLetters(v[4..]) {
          if i >= 4 { assert v[4..][i - 4] == v[i]; }
          else if i >= 2 { assert v[2..4][i - 2] == v[i]; }
          else { assert v[..2][i] == v[i]; }
        } else {
          if i >= 6 { assert v[6..][i - 6] == v[i]; }
          else if i >= 4 { assert v[4..6][i - 4] == v[i]; }
          else if i >= 2 { assert v[2..4][i - 2] == v[i]; }
          else { assert v[..2][i] == v[i]; }
        }
      }
    }
  }

  /** Every accepted plate is at most 10 characters long, and every prefix of it is accepted too. */
  lemma PlatePrefixClosed(v: string, k: nat)
    requires PlateRegexes(v) && k <= |v|
    ensures |v| <= 10
    ensures PlateRegexes(v[..k])
  {
    PlateAcceptsTemplatePrefixes(v);
    PlateAcceptsTemplatePrefixes(v[..k]);
  }

  /**
    The plate field: the input is upper-cased and kept iff it is a prefix of
    the template; otherwise the field is unchanged.
   */
  function OnPlateChange(current: string, input: string): (r: string)
    ensures TemplatePrefix(Upper(input)) ==> r == Upper(input)
    ensures !TemplatePrefix(Upper(input)) ==> r == current
    ensures TemplatePrefix(current) ==> TemplatePrefix(r)
  {
    PlateAcceptsTemplatePrefixes(Upper(input));
    Filtered(current, Upper(input), PlateRegexes)
  }
}
