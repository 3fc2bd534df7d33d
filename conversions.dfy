/**
 * Digit strings: the text-to-number conversions used by the block-reference
 * parser and by the test helpers (java.math.BigInteger's string constructor,
 * restricted to ASCII digits), and the encoders they invert.
 */
module Conversions {
  import opened Wrappers

  /** Character.digit(c, radix) on ASCII: the digit value of c, or -1. */
  function DigitValue(c: char, radix: nat): (d: int)
    requires 2 <= radix <= 36
    ensures -1 <= d < radix
  {
    var v :=
      if '0' <= c <= '9' then c as int - '0' as int
      else if 'a' <= c <= 'z' then c as int - 'a' as int + 10
      else if 'A' <= c <= 'Z' then c as int - 'A' as int + 10
      else radix;
    if v < radix then v else -1
  }

  predicate IsDigit(c: char, radix: nat)
    requires 2 <= radix <= 36
  {
    DigitValue(c, radix) >= 0
  }

  predicate AllDigits(s: string, radix: nat)
    requires 2 <= radix <= 36
  {
    forall i :: 0 <= i < |s| ==> IsDigit(s[i], radix)
  }

  /** s begins with the hex prefix "0x". */
  predicate StartsWith0x(s: string)
  {
    |s| >= 2 && s[..2] == "0x"
  }

  /** The character class [0-9a-fA-F]. */
  predicate IsHexDigit(c: char)
  {
    '0' <= c <= '9' || 'a' <= c <= 'f' || 'A' <= c <= 'F'
  }

  /** The value of a digit string, most significant digit first. */
  function DigitsValue(s: string, radix: nat): nat
    requires 2 <= radix <= 36
    requires AllDigits(s, radix)
  {
    if s == [] then 0
    else DigitsValue(s[..|s| - 1], radix) * radix + DigitValue(s[|s| - 1], radix)
  }

  function HexValue(s: string): nat
    requires AllDigits(s, 16)
  {
    DigitsValue(s, 16)
  }

  /**
   * new BigInteger(s, radix): an optional '-' or '+' followed by one or more
   * digits of the radix; anything else is a NumberFormatException (None).
   */
  function ParseBigInteger(s: string, radix: nat): (r: Option<int>)
    requires 2 <= radix <= 36
    ensures s == "" || s == "-" || s == "+" ==> r.None?
    ensures r.Some? && r.value < 0 ==> s[0] == '-'
    ensures r.Some? <==>
              (var d := if |s| > 0 && (s[0] == '-' || s[0] == '+') then s[1..] else s; d != "" && AllDigits(d, radix))
    ensures AllDigits(s, radix) && s != "" ==> r == Some(DigitsValue(s, radix) as int)
    ensures |s| > 1 && s[0] == '+' && AllDigits(s[1..], radix) ==> r == Some(DigitsValue(s[1..], radix) as int)
    ensures |s| > 1 && s[0] == '-' && AllDigits(s[1..], radix) ==> r == Some(-(DigitsValue(s[1..], radix) as int))
  {
    var signed := |s| > 0 && (s[0] == '-' || s[0] == '+');
    var digits := if signed then s[1..] else s;
    if |digits| == 0 || !AllDigits(digits, radix) then None
    else if signed && s[0] == '-' then Some(-(DigitsValue(digits, radix) as int))
    else Some(DigitsValue(digits, radix))
  }

  /** The lower-case character for digit d. */
  function DigitChar(d: nat, radix: nat): (c: char)
    requires 2 <= radix <= 36 && d < radix
    ensures DigitValue(c, radix) == d
  {
    if d < 10 then (d + '0' as int) as char else (d - 10 + 'a' as int) as char
  }

  /** The shortest digit string for n (at least one digit). */
  function ToDigits(n: nat, radix: nat): (s: string)
    requires 2 <= radix <= 36
    ensures |s| > 0 && AllDigits(s, radix) && DigitsValue(s, radix) == n
    decreases n
  {
    if n < radix then [DigitChar(n, radix)]
    else
      var prefix := ToDigits(n / radix, radix);
      var s := prefix + [DigitChar(n % radix, radix)];
      assert s[..|s| - 1] == prefix;
      s
  }

  /** A leading zero digit does not change the value of a digit string. */
  lemma {:induction false} LeadingZero(s: string, radix: nat)
    requires 2 <= radix <= 36 && AllDigits(s, radix)
    ensures AllDigits("0" + s, radix) && DigitsValue("0" + s, radix) == DigitsValue(s, radix)
  {
    if s != [] {
      assert ("0" + s)[..|"0" + s| - 1] == "0" + s[..|s| - 1];
      LeadingZero(s[..|s| - 1], radix);
    }
  }

  /** Parsing the digits of n yields n, and with a leading '-' yields -n. */
  lemma ParseBigIntegerRoundTrip(n: nat, radix: nat)
    requires 2 <= radix <= 36
    ensures ParseBigInteger(ToDigits(n, radix), radix) == Some(n)
    ensures ParseBigInteger("-" + ToDigits(n, radix), radix) == Some(-(n as int))
  {
    var d := ToDigits(n, radix);
    assert IsDigit(d[0], radix);
    assert ("-" + d)[1..] == d;
  }

  /** The character class [0-9a-fA-F] is exactly the set of base-16 digits. */
  lemma HexDigitsAreDigits(s: string)
    ensures (forall i :: 0 <= i < |s| ==> IsHexDigit(s[i])) <==> AllDigits(s, 16)
  {
  }
}
