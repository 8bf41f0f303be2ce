/** Character classes and decimal text as the donation form uses them:
    ASCII digits, ASCII letters, the characters JavaScript's `\s` matches,
    and the decimal rendering `Number.prototype.toString` gives a whole number
    up to 2^53. */
module Text {

  /** `\d` and `[0-9]`: the ten ASCII digits, nothing else. */
  predicate IsAsciiDigit(c: char) {
    '0' <= c <= '9'
  }

  /** `[a-zA-Z]` without the `i` flag: the 52 ASCII letters. */
  predicate IsAsciiLetter(c: char) {
    'a' <= c <= 'z' || 'A' <= c <= 'Z'
  }

  /** `\s` in ECMAScript: the WhiteSpace characters (tab, vertical tab, form
      feed, space, no-break space, zero-width no-break space and every other
      Unicode space separator) and the LineTerminator characters (line feed,
      carriage return, line separator, paragraph separator). */
  predicate IsWhiteSpace(c: char) {
    || c == '\t' || c == '\n' || c == '\U{B}' || c == '\U{C}' || c == '\r'
    || c == ' ' || c == '\U{A0}' || c == '\U{1680}'
    || ('\U{2000}' <= c <= '\U{200A}')
    || c == '\U{2028}' || c == '\U{2029}' || c == '\U{202F}' || c == '\U{205F}'
    || c == '\U{3000}' || c == '\U{FEFF}'
  }

  /** Non-empty and made of ASCII digits only. */
  predicate IsDigits(s: string) {
    |s| > 0 && forall i :: 0 <= i < |s| ==> IsAsciiDigit(s[i])
  }

  /** Non-empty and made of ASCII letters and whitespace only. */
  predicate IsNameText(s: string) {
    |s| > 0 && forall i :: 0 <= i < |s| ==> IsAsciiLetter(s[i]) || IsWhiteSpace(s[i])
  }

  function DigitChar(d: nat): (c: char)
    requires d < 10
    ensures IsAsciiDigit(c)
  {
    ('0' as int + d) as char
  }

  function DigitValue(c: char): (d: nat)
    requires IsAsciiDigit(c)
    ensures d < 10 && DigitChar(d) == c
  {
    c as int - '0' as int
  }

  /** The value a string of ASCII digits denotes in base ten. */
  function DecimalValue(s: string): nat
    requires forall i :: 0 <= i < |s| ==> IsAsciiDigit(s[i])
  {
    if |s| == 0 then 0 else DecimalValue(s[..|s| - 1]) * 10 + DigitValue(s[|s| - 1])
  }

  /** 2^53: up to here every whole number is exactly a double, and `toString`
      prints its exact numeral. Beyond it `toString` prints the shortest
      digits that identify the nearest double instead. */
  const ExactIntegerLimit: nat := 9_007_199_254_740_992

  /** `n.toString()` for a whole number up to 2^53: its exact, shortest
      base-ten numeral. */
  function ToDecimal(n: nat): (r: string)
    requires n <= ExactIntegerLimit
    ensures IsDigits(r)
    ensures r[0] == '0' <==> n == 0
    ensures n == 0 ==> r == "0"
  {
    if n < 10 then [DigitChar(n)] else ToDecimal(n / 10) + [DigitChar(n % 10)]
  }

  /** Reading the rendered numeral back gives the number that was rendered. */
  lemma {:induction false} DecimalRoundTrip(n: nat)
    requires n <= ExactIntegerLimit
    ensures DecimalValue(ToDecimal(n)) == n
  {
    var r := ToDecimal(n);
    if n >= 10 {
      DecimalRoundTrip(n / 10);
      assert r[..|r| - 1] == ToDecimal(n / 10);
      assert DigitValue(r[|r| - 1]) == n % 10;
    }
  }
}
