/**
 * Decimal text of arbitrary-precision integers, as BigInt.prototype.toString
 * produces it for radix 10 (ECMA-262, section 21.2.3.3): an optional minus
 * sign followed by the digits of the magnitude, most significant first, with
 * no leading zero. A parser is given beside it so that the round trip can be
 * stated.
 */
module Decimal {
  import opened Wrappers

  predicate IsDigit(c: char) {
    '0' <= c <= '9'
  }

  predicate AllDigits(s: string) {
    forall k :: 0 <= k < |s| ==> IsDigit(s[k])
  }

  /** A non-empty digit string without a leading zero, except "0" itself. */
  predicate CanonicalDigits(s: string) {
    |s| > 0 && AllDigits(s) && (|s| > 1 ==> s[0] != '0')
  }

  /** The strings the encoder can produce: canonical digits, or a minus sign before a non-zero magnitude. */
  predicate CanonicalDecimal(s: string) {
    CanonicalDigits(s) || (|s| > 1 && s[0] == '-' && s[1] != '0' && CanonicalDigits(s[1..]))
  }

  function DigitValue(c: char): (d: nat)
    requires IsDigit(c)
    ensures d < 10
  {
    c as int - '0' as int
  }

  function DigitChar(d: nat): (c: char)
    requires d < 10
    ensures IsDigit(c) && DigitValue(c) == d
    ensures (c == '0') == (d == 0)
  {
    ('0' as int + d) as char
  }

  /** The decimal digits of a natural number. */
  function NatToDecimal(n: nat): (s: string)
    ensures CanonicalDigits(s)
  {
    if n < 10 then [DigitChar(n)] else NatToDecimal(n / 10) + [DigitChar(n % 10)]
  }

  /** BigInt.prototype.toString() with the default radix 10. */
  function BigIntToString(i: int): (s: string)
    ensures CanonicalDecimal(s)
    ensures i < 0 <==> (|s| > 0 && s[0] == '-')
  {
    if i < 0 then "-" + NatToDecimal(-i) else NatToDecimal(i)
  }

  /** The value of a non-empty digit string, leading zeros allowed. */
  function ParseDigits(s: string): nat
    requires |s| > 0 && AllDigits(s)
  {
    if |s| == 1 then DigitValue(s[0])
    else ParseDigits(s[..|s| - 1]) * 10 + DigitValue(s[|s| - 1])
  }

  /** Reads an optional minus sign followed by at least one digit; anything else is rejected. */
  function ParseDecimal(s: string): (r: Option<int>)
    ensures r.Some? <==> (|s| > 0 && AllDigits(s)) || (|s| > 1 && s[0] == '-' && AllDigits(s[1..]))
  {
    if |s| > 1 && s[0] == '-' && AllDigits(s[1..]) then Some(0 - ParseDigits(s[1..]) as int)
    else if |s| > 0 && AllDigits(s) then Some(ParseDigits(s))
    else None
  }

  lemma {:induction false} ParseNatToDecimal(n: nat)
    ensures ParseDigits(NatToDecimal(n)) == n
  {
    if n >= 10 {
      var s := NatToDecimal(n);
      assert s[..|s| - 1] == NatToDecimal(n / 10);
      ParseNatToDecimal(n / 10);
    }
  }

  /** Encoding then parsing gives back every integer, negative ones included. */
  lemma BigIntToStringRoundTrip(i: int)
    ensures ParseDecimal(BigIntToString(i)) == Some(i)
  {
    var s := BigIntToString(i);
    if i < 0 {
      assert s[1..] == NatToDecimal(-i);
      ParseNatToDecimal(-i);
    } else {
      ParseNatToDecimal(i);
    }
  }

  lemma {:induction false} LeadingNonZeroIsPositive(s: string)
    requires |s| > 0 && AllDigits(s) && s[0] != '0'
    ensures ParseDigits(s) > 0
  {
    if |s| > 1 {
      LeadingNonZeroIsPositive(s[..|s| - 1]);
    }
  }

  lemma {:induction false} CanonicalDigitsRoundTrip(s: string)
    requires CanonicalDigits(s)
    ensures NatToDecimal(ParseDigits(s)) == s
  {
    if |s| > 1 {
      var p := s[..|s| - 1];
      LeadingNonZeroIsPositive(p);
      CanonicalDigitsRoundTrip(p);
      var n := ParseDigits(s);
      assert n / 10 == ParseDigits(p) && n % 10 == DigitValue(s[|s| - 1]);
      assert s == p + [s[|s| - 1]];
    }
  }

  /**
   * The encoding is the only canonical spelling of its value: a canonical
   * string parses, and encoding the parsed value spells the same string.
   */
  lemma CanonicalDecimalRoundTrip(s: string)
    requires CanonicalDecimal(s)
    ensures ParseDecimal(s).Some? && BigIntToString(ParseDecimal(s).value) == s
  {
    if s[0] == '-' {
      var m := s[1..];
      LeadingNonZeroIsPositive(m);
      CanonicalDigitsRoundTrip(m);
      assert s == "-" + m;
    } else {
      CanonicalDigitsRoundTrip(s);
    }
  }
}
