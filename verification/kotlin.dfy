/** Kotlin's nullable values and the few `String` operations the controllers
    rely on: `isNullOrBlank`, `isNullOrEmpty`, `String.toLong` (the JVM's
    `Long.parseLong` in radix 10), and `Long.toString`, which `toLong`
    undoes. */
module Kotlin {

  /** A value of the nullable type `T?`: `null` or a value of `T`. */
  datatype Option<+T> = None | Some(value: T)

  /** The range of a JVM `Long`. */
  const LONG_MIN: int := -0x8000_0000_0000_0000
  const LONG_MAX: int := 0x7FFF_FFFF_FFFF_FFFF

  predicate InLongRange(n: int) {
    LONG_MIN <= n <= LONG_MAX
  }

  /** `Char.isWhitespace()` on the JVM, that is Java's `Character.isWhitespace`
      or `Character.isSpaceChar`: the controls U+0009..U+000D and
      U+001C..U+001F, and every space, line or paragraph separator. */
  predicate IsWhitespace(c: char) {
    || ('\t' <= c <= '\r')
    || ('\U{1C}' <= c <= ' ')
    || c == '\U{A0}'
    || c == '\U{1680}'
    || ('\U{2000}' <= c <= '\U{200A}')
    || c == '\U{2028}' || c == '\U{2029}'
    || c == '\U{202F}' || c == '\U{205F}'
    || c == '\U{3000}'
  }

  /** `s.isNullOrEmpty()`: null or of length zero (" " is not empty). */
  function IsNullOrEmpty(s: Option<string>): (b: bool)
    ensures b <==> s.None? || s.value == ""
  {
    s.None? || |s.value| == 0
  }

  /** `s.isNullOrBlank()`: null, empty, or whitespace only. Every null or
      empty string is blank; a string is not blank exactly when some
      character of it is not whitespace. */
  function IsNullOrBlank(s: Option<string>): (b: bool)
    ensures IsNullOrEmpty(s) ==> b
    ensures !b <==> s.Some? && exists i | 0 <= i < |s.value| :: !IsWhitespace(s.value[i])
  {
    s.None? || forall i | 0 <= i < |s.value| :: IsWhitespace(s.value[i])
  }

  /** Blank and empty differ: a string of whitespace is blank and not empty. */
  lemma WhitespaceIsBlankNotEmpty(s: string)
    requires |s| > 0 && forall i | 0 <= i < |s| :: IsWhitespace(s[i])
    ensures IsNullOrBlank(Some(s)) && !IsNullOrEmpty(Some(s))
  {
  }

  predicate IsDigit(c: char) {
    '0' <= c <= '9'
  }

  predicate AllDigits(s: string) {
    forall i | 0 <= i < |s| :: IsDigit(s[i])
  }

  function DigitValue(c: char): (d: nat)
    requires IsDigit(c)
    ensures d < 10
  {
    c as int - '0' as int
  }

  function DigitChar(d: nat): (c: char)
    requires d < 10
    ensures IsDigit(c) && DigitValue(c) == d
  {
    ('0' as int + d) as char
  }

  /** The number a string of decimal digits denotes, read left to right as
      `parseLong` accumulates it; leading zeros add nothing. */
  function DigitsValue(s: string): nat
    requires AllDigits(s)
  {
    if |s| == 0 then 0 else DigitsValue(s[..|s| - 1]) * 10 + DigitValue(s[|s| - 1])
  }

  /** The canonical decimal digits of `n`: no sign, no leading zero. */
  function NatDigits(n: nat): (s: string)
    ensures |s| > 0 && AllDigits(s)
    ensures |s| > 1 ==> s[0] != '0'
  {
    if n < 10 then [DigitChar(n)] else NatDigits(n / 10) + [DigitChar(n % 10)]
  }

  /** `Long.toString()`: what a client sees of a numeric id. */
  function DecimalString(n: int): (s: string)
    ensures |s| > 0
    ensures n >= 0 <==> IsDigit(s[0])
  {
    if n < 0 then "-" + NatDigits(-n) else NatDigits(n)
  }

  /** `s.toLong()`: an optional '+' or '-', then one or more decimal digits
      (leading zeros allowed) whose value fits in a `Long`; anything else
      throws NumberFormatException, here `None`. */
  function ParseLong(s: string): (r: Option<int>)
    ensures r.Some? ==> InLongRange(r.value)
    ensures r.Some? ==> |s| > 0 && (IsDigit(s[0]) || s[0] == '+' || s[0] == '-')
    ensures r.Some? ==> IsDigit(s[0]) || |s| > 1
    ensures |s| > 0 && !AllDigits(s[1..]) ==> r.None?
    ensures |s| > 0 && AllDigits(s) ==>
      r == (if DigitsValue(s) <= LONG_MAX then Some(DigitsValue(s)) else None)
    ensures |s| > 1 && s[0] == '+' && AllDigits(s[1..]) ==>
      r == (if DigitsValue(s[1..]) <= LONG_MAX then Some(DigitsValue(s[1..])) else None)
    ensures |s| > 1 && s[0] == '-' && AllDigits(s[1..]) ==>
      r == (if DigitsValue(s[1..]) <= -LONG_MIN then Some(-(DigitsValue(s[1..]) as int)) else None)
  {
    if |s| == 0 then None
    else
      var digits := if s[0] == '-' || s[0] == '+' then s[1..] else s;
      if |digits| == 0 || !AllDigits(digits) then None
      else
        var v: int := if s[0] == '-' then -(DigitsValue(digits) as int) else DigitsValue(digits);
        if InLongRange(v) then Some(v) else None
  }

  lemma {:induction false} DigitsRoundTrip(n: nat)
    ensures DigitsValue(NatDigits(n)) == n
  {
    if n >= 10 {
      var s := NatDigits(n);
      assert s[..|s| - 1] == NatDigits(n / 10);
      DigitsRoundTrip(n / 10);
    }
  }

  /** Every `Long` printed by `toString` parses back to itself with `toLong`. */
  lemma ParseLongRoundTrip(n: int)
    requires InLongRange(n)
    ensures ParseLong(DecimalString(n)) == Some(n)
  {
    if n < 0 {
      var s := DecimalString(n);
      assert s[1..] == NatDigits(-n);
      DigitsRoundTrip(-n);
    } else {
      DigitsRoundTrip(n);
    }
  }

  lemma {:induction false} LeadingZeroDigits(s: string)
    requires AllDigits(s)
    ensures AllDigits("0" + s) && DigitsValue("0" + s) == DigitsValue(s)
  {
    var t := "0" + s;
    if |s| > 0 {
      assert t[..|t| - 1] == "0" + s[..|s| - 1];
      LeadingZeroDigits(s[..|s| - 1]);
    }
  }

  /** Two different strings can denote the same `Long`: a leading zero in front
      of a digit string changes the text and not the number. */
  lemma LeadingZeroIgnored(s: string)
    requires |s| > 0 && AllDigits(s)
    ensures "0" + s != s
    ensures ParseLong("0" + s) == ParseLong(s)
  {
    LeadingZeroDigits(s);
    assert ("0" + s)[1..] == s;
  }
}
