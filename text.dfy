/**
 * String helpers with JavaScript meaning: `startsWith`, and the decimal
 * rendering of an integer inside a template literal (`${score}`), together
 * with a parser that inverts it.
 */
module Text {

  predicate StartsWith(s: string, prefix: string) {
    |prefix| <= |s| && s[..|prefix|] == prefix
  }

  predicate IsDigit(c: char) {
    '0' <= c <= '9'
  }

  predicate AllDigits(s: string) {
    forall i | 0 <= i < |s| :: IsDigit(s[i])
  }

  /** A non-empty run of decimal digits. */
  predicate IsNumeral(s: string) {
    |s| > 0 && AllDigits(s)
  }

  /** What `${n}` produces for an integer: an optional minus sign and a numeral. */
  predicate IsIntegerText(s: string) {
    IsNumeral(s) || (|s| > 1 && s[0] == '-' && IsNumeral(s[1..]))
  }

  function Digit(d: nat): (c: char)
    requires d < 10
    ensures IsDigit(c) && c as int - '0' as int == d
  {
    ('0' as int + d) as char
  }

  function DigitValue(c: char): (d: nat)
    requires IsDigit(c)
    ensures d < 10
  {
    c as int - '0' as int
  }

  /** Decimal rendering of a natural number, most significant digit first. */
  function NatToString(n: nat): (s: string)
    ensures IsNumeral(s)
    ensures n < 10 <==> |s| == 1
    decreases n
  {
    if n < 10 then [Digit(n)] else NatToString(n / 10) + [Digit(n % 10)]
  }

  /** Decimal rendering of an integer as a template literal shows it. */
  function IntToString(i: int): (s: string)
    ensures IsIntegerText(s)
    ensures i < 0 <==> s[0] == '-'
  {
    if i < 0 then "-" + NatToString(-i) else NatToString(i)
  }

  /** The value of a run of digits (the empty run is 0). */
  function ParseNat(s: string): nat
    requires AllDigits(s)
    decreases |s|
  {
    if s == [] then 0 else ParseNat(s[..|s| - 1]) * 10 + DigitValue(s[|s| - 1])
  }

  function ParseInt(s: string): int
    requires IsIntegerText(s)
  {
    if s[0] == '-' then -(ParseNat(s[1..]) as int) else ParseNat(s)
  }

  lemma {:induction false} ParseNatToString(n: nat)
    ensures ParseNat(NatToString(n)) == n
    decreases n
  {
    if n >= 10 {
      var s := NatToString(n / 10);
      ParseNatToString(n / 10);
      var t := s + [Digit(n % 10)];
      assert NatToString(n) == t;
      assert t[..|t| - 1] == s;
    }
  }

  /** Reading back a rendered integer gives the integer: the rendering loses nothing. */
  lemma ParseIntToString(i: int)
    ensures ParseInt(IntToString(i)) == i
  {
    if i < 0 {
      ParseNatToString(-i);
      assert IntToString(i)[1..] == NatToString(-i);
    } else {
      ParseNatToString(i);
    }
  }

  /** Two different integers are never rendered alike. */
  lemma IntToStringInjective(a: int, b: int)
    ensures IntToString(a) == IntToString(b) ==> a == b
  {
    ParseIntToString(a);
    ParseIntToString(b);
  }

  /**
   * `${n}` followed by a fixed suffix still determines `n`: strip the suffix
   * and read the number back.
   */
  lemma IntWithSuffix(i: int, suffix: string)
    ensures var t := IntToString(i) + suffix;
      |t| > |suffix| && t[|t| - |suffix|..] == suffix
      && IsIntegerText(t[..|t| - |suffix|]) && ParseInt(t[..|t| - |suffix|]) == i
  {
    var t := IntToString(i) + suffix;
    assert t[..|t| - |suffix|] == IntToString(i);
    ParseIntToString(i);
  }
}
