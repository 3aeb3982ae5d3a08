/** Decimal text of natural numbers, and reading integers back as Python's `int` does. */
module Decimal {
  import opened Wrappers
  import opened Text

  function DigitChar(d: nat): char
    requires d < 10
  {
    ('0' as int + d) as char
  }

  function DigitValue(c: char): nat
    requires IsDigit(c)
  {
    c as int - '0' as int
  }

  /** `str(n)` for a natural number. */
  function ToDecimal(n: nat): (s: string)
    ensures s != ""
  {
    if n < 10 then [DigitChar(n)] else ToDecimal(n / 10) + [DigitChar(n % 10)]
  }

  lemma {:induction false} ToDecimalDigits(n: nat)
    ensures forall c :: c in ToDecimal(n) ==> IsDigit(c)
  {
    if n >= 10 {
      ToDecimalDigits(n / 10);
    }
  }

  /** Digits, with single underscores allowed between them; `None` for any other text. */
  function ReadDigits(s: string): Option<nat> {
    if s == "" || !IsDigit(s[|s| - 1]) then None
    else if |s| == 1 then Some(DigitValue(s[0]))
    else
      var init := s[..|s| - 1];
      var trimmed := if init[|init| - 1] == '_' then init[..|init| - 1] else init;
      match ReadDigits(trimmed)
      case None => None
      case Some(high) => Some(10 * high + DigitValue(s[|s| - 1]))
  }

  /** `int(s)`: surrounding whitespace and one sign are allowed. */
  function ReadInt(s: string): Option<int> {
    var text := Strip(s);
    if text != "" && (text[0] == '-' || text[0] == '+') then
      match ReadDigits(text[1..])
      case None => None
      case Some(n) =>
        var magnitude: int := n;
        Some(if text[0] == '-' then -magnitude else magnitude)
    else match ReadDigits(text)
      case None => None
      case Some(n) => Some(n)
  }

  lemma {:induction false} DigitsRoundTrip(n: nat)
    ensures ReadDigits(ToDecimal(n)) == Some(n)
  {
    if n >= 10 {
      var high, low := ToDecimal(n / 10), [DigitChar(n % 10)];
      DigitsRoundTrip(n / 10);
      ToDecimalDigits(n / 10);
      var s := high + low;
      assert s[..|s| - 1] == high && s[|s| - 1] == low[0];
      assert high[|high| - 1] in high;
    }
  }

  /** Reading back a printed number gives the number. */
  lemma DecimalRoundTrip(n: nat)
    ensures ReadInt(ToDecimal(n)) == Some(n)
  {
    var s := ToDecimal(n);
    ToDecimalDigits(n);
    assert s[0] in s && s[|s| - 1] in s;
    StripTrimmed(s);
    DigitsRoundTrip(n);
  }

  lemma ToDecimalInjective(m: nat, n: nat)
    requires ToDecimal(m) == ToDecimal(n)
    ensures m == n
  {
    DigitsRoundTrip(m);
    DigitsRoundTrip(n);
  }
}
