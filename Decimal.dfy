/**
 * Python's `str()` of an integer: the decimal text that parameter values and
 * channel section names are stored as, with its inverse.
 */
module Decimal {
  import opened Results

  predicate IsDigit(ch: char)
  {
    '0' <= ch <= '9'
  }

  function DigitChar(d: nat): (ch: char)
    requires d < 10
    ensures IsDigit(ch) && ch as int - '0' as int == d
  {
    ('0' as int + d) as char
  }

  /** The decimal digits of `n`, most significant first, with no leading zero. */
  function NatToText(n: nat): (s: string)
    ensures |s| > 0 && forall i :: 0 <= i < |s| ==> IsDigit(s[i])
    ensures |s| > 1 ==> s[0] != '0'
  {
    if n < 10 then [DigitChar(n)] else NatToText(n / 10) + [DigitChar(n % 10)]
  }

  /** `str(n)` for a Python int. */
  function IntToText(n: int): (s: string)
    ensures |s| > 0
    ensures n < 0 <==> s[0] == '-'
  {
    if n < 0 then "-" + NatToText(-n) else NatToText(n)
  }

  /** The value of a non-empty string of decimal digits. */
  function DigitsValue(s: string): nat
    requires |s| > 0 && forall i :: 0 <= i < |s| ==> IsDigit(s[i])
  {
    assert IsDigit(s[|s| - 1]);
    var last: nat := s[|s| - 1] as int - '0' as int;
    if |s| == 1 then last else DigitsValue(s[..|s| - 1]) * 10 + last
  }

  /** `int(s)`: reads back what `IntToText` writes, and refuses anything else. */
  function ParseInt(s: string): (r: Option<int>)
  {
    if |s| > 0 && forall i :: 0 <= i < |s| ==> IsDigit(s[i]) then Some(DigitsValue(s))
    else if |s| > 1 && s[0] == '-' && forall i :: 1 <= i < |s| ==> IsDigit(s[i]) then Some(0 - DigitsValue(s[1..]) as int)
    else None
  }

  lemma {:induction false} NatToTextRoundTrip(n: nat)
    ensures DigitsValue(NatToText(n)) == n
  {
    if n >= 10 {
      NatToTextRoundTrip(n / 10);
      var s := NatToText(n);
      assert s[..|s| - 1] == NatToText(n / 10);
    }
  }

  /** Reading the text of an integer gives the integer back. */
  lemma IntToTextRoundTrip(n: int)
    ensures ParseInt(IntToText(n)) == Some(n)
  {
    if n < 0 {
      NatToTextRoundTrip(-n);
      var s := IntToText(n);
      assert s[1..] == NatToText(-n);
      assert !IsDigit(s[0]);
    } else {
      NatToTextRoundTrip(n);
    }
  }

  /** Different integers have different texts. */
  lemma IntToTextInjective(a: int, b: int)
    requires IntToText(a) == IntToText(b)
    ensures a == b
  {
    IntToTextRoundTrip(a);
    IntToTextRoundTrip(b);
  }

  lemma TextExamples()
    ensures IntToText(2400) == "2400"
    ensures IntToText(700) == "700"
  {
    assert NatToText(2) == "2";
    assert NatToText(24) == "24";
    assert NatToText(240) == "240";
    assert NatToText(7) == "7";
    assert NatToText(70) == "70";
  }
}
