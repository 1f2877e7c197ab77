/**
 * The two integer conversions the rovers use from the Java library: Integer.parseInt
 * on the coordinate fields, and the decimal rendering of an int that string
 * concatenation ("" + n) performs. Integers are unbounded here.
 */
module Decimal {
  import opened Wrappers
  import opened Utils

  predicate IsDigit(c: char)
  {
    '0' <= c <= '9'
  }

  predicate AllDigits(s: string)
  {
    forall i :: 0 <= i < |s| ==> IsDigit(s[i])
  }

  function DigitChar(d: nat): (c: char)
    requires d < 10
    ensures IsDigit(c)
  {
    ('0' as int + d) as char
  }

  function DigitValue(c: char): (d: nat)
    requires IsDigit(c)
    ensures d < 10 && DigitChar(d) == c
  {
    c as int - '0' as int
  }

  /** The decimal digits of n, most significant first, without leading zeros. */
  function NatToString(n: nat): (s: string)
    ensures |s| >= 1 && AllDigits(s)
    ensures s[0] == '0' ==> n == 0
  {
    if n < 10 then [DigitChar(n)] else NatToString(n / 10) + [DigitChar(n % 10)]
  }

  /** How Java renders an int inside a string concatenation: a minus sign for negative values, then the digits. */
  function IntToString(n: int): (s: string)
    ensures |s| >= 1
    ensures forall i :: 0 <= i < |s| ==> IsDigit(s[i]) || s[i] == '-'
  {
    if n < 0 then "-" + NatToString(-n) else NatToString(n)
  }

  /** The value of a string of decimal digits. */
  function DigitsValue(s: string): nat
    requires AllDigits(s)
  {
    if s == [] then 0 else DigitsValue(s[..|s| - 1]) * 10 + DigitValue(s[|s| - 1])
  }

  /**
   * Integer.parseInt on the inputs it accepts: an optional '-' or '+' followed by
   * at least one decimal digit. Anything else makes Java throw NumberFormatException,
   * which is None here.
   */
  function ParseInt(s: string): (r: Option<int>)
    ensures r.Some? <==>
      (|s| > 0 && AllDigits(s)) || (|s| > 1 && (s[0] == '-' || s[0] == '+') && AllDigits(s[1..]))
    ensures r.Some? && r.value < 0 ==> s[0] == '-'
    ensures r.Some? && AllDigits(s) ==> r.value == DigitsValue(s)
  {
    if |s| > 0 && (s[0] == '-' || s[0] == '+') then
      var digits := s[1..];
      if |digits| > 0 && AllDigits(digits) then
        var magnitude: int := DigitsValue(digits);
        Some(if s[0] == '-' then -magnitude else magnitude)
      else None
    else if |s| > 0 && AllDigits(s) then Some(DigitsValue(s))
    else None
  }

  lemma {:induction false} DigitsValueOfNatToString(n: nat)
    ensures DigitsValue(NatToString(n)) == n
    decreases n
  {
    if n >= 10 {
      var s := NatToString(n);
      assert s[..|s| - 1] == NatToString(n / 10);
      DigitsValueOfNatToString(n / 10);
    }
  }

  /** Parsing the rendering of an int gives the int back. */
  lemma ParseIntRoundTrip(n: int)
    ensures ParseInt(IntToString(n)) == Some(n)
  {
    if n < 0 {
      DigitsValueOfNatToString(-n);
      assert IntToString(n)[1..] == NatToString(-n);
    } else {
      DigitsValueOfNatToString(n);
    }
  }

  /** Upper-casing leaves a field's value alone: digits and signs have no case, and letters stay non-digits. */
  lemma ParseIntUpperCase(s: string)
    ensures ParseInt(UpperCase(s)) == ParseInt(s)
  {
    var u := UpperCase(s);
    assert forall i :: 0 <= i < |s| ==> (IsDigit(u[i]) <==> IsDigit(s[i]));
    assert forall i :: 0 <= i < |s| ==> (IsDigit(s[i]) ==> u[i] == s[i]);
    if |s| > 0 {
      assert (u[0] == '-' <==> s[0] == '-') && (u[0] == '+' <==> s[0] == '+');
      if s[0] == '-' || s[0] == '+' {
        assert u[0] == s[0];
        assert AllDigits(u[1..]) <==> AllDigits(s[1..]);
        if AllDigits(s[1..]) {
          assert u[1..] == s[1..];
        }
      } else if AllDigits(s) {
        assert u == s;
      }
    }
  }
}
