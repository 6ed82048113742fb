/**
 * Python's `str(n)` for an integer, as used by the f-string
 * `f"Bing API error: {response.status_code}"`, and its inverse, which shows
 * that the status code can be read back from the message.
 */
module Decimal {

  predicate IsDigit(c: char)
  {
    '0' <= c <= '9'
  }

  predicate AllDigits(s: string)
  {
    forall i | 0 <= i < |s| :: IsDigit(s[i])
  }

  function DigitChar(d: nat): (c: char)
    requires d < 10
    ensures IsDigit(c) && (c as int) - ('0' as int) == d
  {
    "0123456789"[d]
  }

  /** The decimal digits of `n`, most significant first, without leading zeros. */
  function NatDigits(n: nat): (s: string)
    ensures |s| > 0 && AllDigits(s)
    ensures s[0] == '0' ==> n == 0 && s == "0"
    decreases n
  {
    if n < 10 then [DigitChar(n)] else NatDigits(n / 10) + [DigitChar(n % 10)]
  }

  /** Python's `str(i)` for an int: a minus sign, then the digits of |i|. */
  function IntToDecimal(i: int): (s: string)
    ensures |s| > 0 && IsDecimal(s) && IsCanonicalDecimal(s)
    ensures i < 0 <==> s[0] == '-'
  {
    if i < 0 then "-" + NatDigits(-i) else NatDigits(i)
  }

  /** The value of a string of decimal digits (0 for the empty string). */
  function DigitsValue(s: string): nat
    requires AllDigits(s)
  {
    if s == [] then 0
    else DigitsValue(s[..|s| - 1]) * 10 + ((s[|s| - 1] as int) - ('0' as int))
  }

  /** Optional minus sign, then decimal digits. */
  predicate IsDecimal(s: string)
  {
    if |s| > 0 && s[0] == '-' then AllDigits(s[1..]) else AllDigits(s)
  }

  /** Digits without a leading zero, except for the single digit "0". */
  predicate IsCanonicalDigits(d: string)
  {
    |d| > 0 && AllDigits(d) && (d[0] == '0' ==> d == "0")
  }

  /** The one text `str()` gives an int: no leading zeros and no "-0". */
  predicate IsCanonicalDecimal(s: string)
  {
    if |s| > 0 && s[0] == '-' then IsCanonicalDigits(s[1..]) && s[1..] != "0"
    else IsCanonicalDigits(s)
  }

  /** Python's `int(s)` for a string of the form IntToDecimal produces. */
  function DecimalValue(s: string): int
    requires IsDecimal(s)
  {
    if |s| > 0 && s[0] == '-' then -(DigitsValue(s[1..]) as int) else DigitsValue(s)
  }

  lemma {:induction false} NatDigitsRoundTrip(n: nat)
    ensures DigitsValue(NatDigits(n)) == n
    decreases n
  {
    if n >= 10 {
      var s := NatDigits(n);
      NatDigitsRoundTrip(n / 10);
      assert s[..|s| - 1] == NatDigits(n / 10);
    }
  }

  /** Reading the decimal text of `i` back gives `i`. */
  lemma IntToDecimalRoundTrip(i: int)
    ensures DecimalValue(IntToDecimal(i)) == i
  {
    if i < 0 {
      var digits := NatDigits(-i);
      assert ("-" + digits)[1..] == digits;
      NatDigitsRoundTrip(-i);
    } else {
      NatDigitsRoundTrip(i);
    }
  }

  /** A digit string without a leading zero denotes a positive number. */
  lemma {:induction false} LeadingDigitPositive(d: string)
    requires |d| > 0 && AllDigits(d) && d[0] != '0'
    ensures DigitsValue(d) >= 1
    decreases |d|
  {
    if |d| > 1 {
      LeadingDigitPositive(d[..|d| - 1]);
    }
  }

  /** Canonical digits are the digits NatDigits gives for their value. */
  lemma {:induction false} CanonicalDigitsAreNatDigits(d: string)
    requires IsCanonicalDigits(d)
    ensures d == NatDigits(DigitsValue(d))
    decreases |d|
  {
    var n := DigitsValue(d);
    if |d| == 1 {
      assert d[..|d| - 1] == [];
      assert DigitsValue(d[..|d| - 1]) == 0;
      assert IsDigit(d[0]) && n == (d[0] as int) - ('0' as int);
      assert NatDigits(n) == [DigitChar(n)];
    } else {
      var prefix := d[..|d| - 1];
      LeadingDigitPositive(prefix);
      CanonicalDigitsAreNatDigits(prefix);
      assert n / 10 == DigitsValue(prefix);
      assert DigitChar(n % 10) == d[|d| - 1];
      assert prefix + [d[|d| - 1]] == d;
    }
  }

  /**
   * Reading is the inverse of writing on canonical text: a canonical decimal
   * is the text IntToDecimal gives for its value.
   */
  lemma CanonicalDecimalIsIntToDecimal(s: string)
    requires IsCanonicalDecimal(s)
    ensures IsDecimal(s) && s == IntToDecimal(DecimalValue(s))
  {
    if |s| > 0 && s[0] == '-' {
      var digits := s[1..];
      LeadingDigitPositive(digits);
      CanonicalDigitsAreNatDigits(digits);
      assert s == "-" + digits;
    } else {
      CanonicalDigitsAreNatDigits(s);
    }
  }

  /** Two canonical decimal texts of the same value are the same text. */
  lemma CanonicalDecimalUnique(s: string, t: string)
    requires IsCanonicalDecimal(s) && IsCanonicalDecimal(t)
    requires IsDecimal(s) && IsDecimal(t) && DecimalValue(s) == DecimalValue(t)
    ensures s == t
  {
    CanonicalDecimalIsIntToDecimal(s);
    CanonicalDecimalIsIntToDecimal(t);
  }
}
