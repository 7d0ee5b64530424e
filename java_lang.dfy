/**
 * The few pieces of the Java platform that the reporter and its client rely
 * on: nullable references, the fixed-width integer types, `double` values,
 * `TimeUnit`, and the decimal text that `Long.toString` / `String.valueOf(long)`
 * produce.
 */
module JavaLang {

  /** A Java reference that may be null. */
  datatype Option<+T> = None | Some(value: T)

  newtype int8 = x: int | -0x80 <= x < 0x80
  newtype int16 = x: int | -0x8000 <= x < 0x8000
  newtype int32 = x: int | -0x8000_0000 <= x < 0x8000_0000
  newtype int64 = x: int | -0x8000_0000_0000_0000 <= x < 0x8000_0000_0000_0000

  /**
   * A Java `double`, kept as its IEEE 754 binary64 bit pattern. The model never
   * computes with it: every floating-point operation is supplied from outside.
   */
  type Double = bv64

  /** java.util.concurrent.TimeUnit */
  datatype TimeUnit =
    | Nanoseconds | Microseconds | Milliseconds | Seconds | Minutes | Hours | Days

  predicate IsDigit(c: char) {
    '0' <= c <= '9'
  }

  predicate AllDigits(s: string) {
    forall i :: 0 <= i < |s| ==> IsDigit(s[i])
  }

  function DigitChar(d: int): (c: char)
    requires 0 <= d < 10
    ensures IsDigit(c) && DigitValue(c) == d
  {
    ('0' as int + d) as char
  }

  function DigitValue(c: char): (d: int)
    requires IsDigit(c)
    ensures 0 <= d < 10
  {
    c as int - '0' as int
  }

  /** The base-10 digits of a natural number, most significant first, without leading zeros. */
  function NaturalText(n: nat): (s: string)
    ensures |s| >= 1 && AllDigits(s)
    ensures s[0] == '0' ==> n == 0 && |s| == 1
    decreases n
  {
    if n < 10 then [DigitChar(n)] else NaturalText(n / 10) + [DigitChar(n % 10)]
  }

  /** `Long.toString(n)`: an optional minus sign followed by the digits of |n|. */
  function DecimalText(n: int): (s: string)
    ensures |s| >= 1
    ensures '.' !in s
  {
    if n < 0 then "-" + NaturalText(-n) else NaturalText(n)
  }

  /** The value of a non-empty string of digits. */
  function DigitsValue(s: string): (n: nat)
    requires AllDigits(s)
    decreases |s|
  {
    if s == [] then 0 else DigitsValue(s[..|s| - 1]) * 10 + DigitValue(s[|s| - 1])
  }

  /** A reference reader of decimal text: an optional '-' then one or more digits, of any magnitude. */
  function ParseDecimal(s: string): (r: Option<int>)
    ensures r.Some? ==> |s| >= 1
  {
    if |s| >= 2 && s[0] == '-' && AllDigits(s[1..]) then
      Some(0 - DigitsValue(s[1..]) as int)
    else if |s| >= 1 && AllDigits(s) then
      Some(DigitsValue(s))
    else
      None
  }

  lemma {:induction false} NaturalTextValue(n: nat)
    ensures DigitsValue(NaturalText(n)) == n
    decreases n
  {
    if n >= 10 {
      var s := NaturalText(n);
      assert s[..|s| - 1] == NaturalText(n / 10);
      NaturalTextValue(n / 10);
    }
  }

  /** A plain run of digits reads back as its value. */
  lemma ParseDigits(t: string)
    requires |t| >= 1 && AllDigits(t)
    ensures ParseDecimal(t) == Some(DigitsValue(t))
  {
    assert t[0] != '-';
  }

  /** A minus sign before a run of digits reads back as the negated value. */
  lemma ParseNegative(t: string)
    requires |t| >= 1 && AllDigits(t)
    ensures ParseDecimal("-" + t) == Some(0 - DigitsValue(t))
  {
    assert ("-" + t)[1..] == t;
  }

  /** The text of a negative integer is a minus sign before the digits of its magnitude. */
  lemma NegativeRoundTrip(n: int)
    requires n < 0
    ensures ParseDecimal(DecimalText(n)) == Some(n)
  {
    var t := NaturalText(-n);
    assert DecimalText(n) == "-" + t;
    NaturalTextValue(-n);
    ParseNegative(t);
  }

  /** The text of a non-negative integer is its digits alone. */
  lemma NonNegativeRoundTrip(n: int)
    requires n >= 0
    ensures ParseDecimal(DecimalText(n)) == Some(n)
  {
    var t := NaturalText(n);
    assert DecimalText(n) == t;
    NaturalTextValue(n);
    ParseDigits(t);
  }

  /** The decimal text of every integer reads back as that integer. */
  lemma DecimalTextRoundTrip(n: int)
    ensures ParseDecimal(DecimalText(n)) == Some(n)
  {
    if n < 0 {
      NegativeRoundTrip(n);
    } else {
      NonNegativeRoundTrip(n);
    }
  }

  /** Distinct integers have distinct decimal texts. */
  lemma DecimalTextInjective(a: int, b: int)
    ensures DecimalText(a) == DecimalText(b) <==> a == b
  {
    DecimalTextRoundTrip(a);
    DecimalTextRoundTrip(b);
  }
}
