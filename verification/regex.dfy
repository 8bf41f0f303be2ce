/** The three anchored regular expressions the form tests its input against.
    Each has the shape `/^[class]+$/` (or `/^\d+$/`): the whole text must be one
    or more characters of a single character class. A class is written as its
    list of items, exactly as in the source literal. */
module Regex {
  import opened Text

  /** One item of a character class: a range `a-z`, or a class escape. */
  datatype ClassItem = Range(lo: char, hi: char) | DigitEscape | SpaceEscape

  /** `/^[items]+$/` with no flags. */
  datatype Pattern = OneOrMore(items: seq<ClassItem>)

  predicate ItemMatches(item: ClassItem, c: char) {
    match item
    case Range(lo, hi) => lo <= c <= hi
    case DigitEscape => IsAsciiDigit(c)
    case SpaceEscape => IsWhiteSpace(c)
  }

  /** A character belongs to a class when some item of the class matches it. */
  predicate InClass(items: seq<ClassItem>, c: char)
    decreases |items|
  {
    |items| > 0 && (ItemMatches(items[0], c) || InClass(items[1..], c))
  }

  /** The `[items]*` tail of the pattern, consumed up to the end anchor. */
  function MatchesRest(items: seq<ClassItem>, s: string): (b: bool)
    ensures b <==> forall i :: 0 <= i < |s| ==> InClass(items, s[i])
  {
    if |s| == 0 then true
    else InClass(items, s[0]) && MatchesRest(items, s[1..])
  }

  /** `RegExp.prototype.test` for `/^[items]+$/`: at least one character, then
      every character up to the end of the text in the class. */
  function Test(p: Pattern, s: string): (b: bool)
    ensures b <==> |s| > 0 && forall i :: 0 <= i < |s| ==> InClass(p.items, s[i])
  {
    |s| > 0 && InClass(p.items, s[0]) && MatchesRest(p.items, s[1..])
  }

  /** `/^\d+$/` */
  const AmountPattern := OneOrMore([DigitEscape])

  /** `/^[a-zA-Z\s]+$/` */
  const FullNamePattern := OneOrMore([Range('a', 'z'), Range('A', 'Z'), SpaceEscape])

  /** `/^[0-9]+$/` */
  const PhonePattern := OneOrMore([Range('0', '9')])

  /** `/^\d+$/` accepts exactly the non-empty all-digit texts. */
  lemma AmountPatternAccepts(s: string)
    ensures Test(AmountPattern, s) <==> IsDigits(s)
  {
  }

  /** `/^[a-zA-Z\s]+$/` accepts exactly the non-empty texts of ASCII letters
      and whitespace. */
  lemma FullNamePatternAccepts(s: string)
    ensures Test(FullNamePattern, s) <==> IsNameText(s)
  {
  }

  /** `/^[0-9]+$/` accepts exactly the non-empty all-digit texts. */
  lemma PhonePatternAccepts(s: string)
    ensures Test(PhonePattern, s) <==> IsDigits(s)
  {
  }

  /** `\d` and `[0-9]` are the same class, so the amount and phone number
      fields accept exactly the same texts. */
  lemma AmountAndPhonePatternsAgree(s: string)
    ensures Test(AmountPattern, s) == Test(PhonePattern, s)
  {
  }
}
