/**
 * The two JavaScript primitives the formatters rely on: `Math.round` on a
 * number, and the decimal text that a template literal `${n}` produces for
 * an integer-valued number. The text is given a parser as its partner, so
 * that "the formatted text shows the integer n" can be stated exactly.
 */
module NumberText {
  import opened Wrappers

  /** JavaScript `Math.round`: the nearest integer, with halves going toward
      +infinity (so 2.5 rounds to 3 and -2.5 rounds to -2). */
  function Round(x: real): (n: int)
    ensures n as real - 0.5 <= x < n as real + 0.5
  {
    (x + 0.5).Floor
  }

  /** The condition in Round's contract pins the integer down uniquely. */
  lemma RoundUnique(x: real, n: int)
    requires n as real - 0.5 <= x < n as real + 0.5
    ensures Round(x) == n
  {
  }

  /** Math.round never reverses the order of two numbers. */
  lemma RoundMonotone(x: real, y: real)
    requires x <= y
    ensures Round(x) <= Round(y)
  {
  }

  /** Rounding an integer gives it back. */
  lemma RoundOfInteger(n: int)
    ensures Round(n as real) == n
  {
  }

  predicate IsDigit(c: char) {
    '0' <= c <= '9'
  }

  predicate AllDigits(s: string) {
    forall i :: 0 <= i < |s| ==> IsDigit(s[i])
  }

  /** A decimal numeral as JavaScript prints one: at least one digit and no
      leading zero unless the numeral is "0" itself. */
  predicate IsCanonicalNumeral(s: string) {
    |s| >= 1 && AllDigits(s) && (|s| > 1 ==> s[0] != '0')
  }

  function DigitChar(d: int): (c: char)
    requires 0 <= d < 10
    ensures IsDigit(c) && c as int - '0' as int == d
  {
    ('0' as int + d) as char
  }

  /** The number a string of decimal digits denotes, most significant first. */
  function NumeralValue(s: string): nat
    requires AllDigits(s)
  {
    if s == [] then 0
    else NumeralValue(s[..|s| - 1]) * 10 + (s[|s| - 1] as int - '0' as int)
  }

  /** The decimal numeral of a natural number. */
  function NatToNumeral(n: nat): (s: string)
    ensures IsCanonicalNumeral(s)
    ensures NumeralValue(s) == n
    ensures s[0] == '0' ==> n == 0
  {
    if n < 10 then [DigitChar(n)]
    else
      var prefix := NatToNumeral(n / 10);
      var s := prefix + [DigitChar(n % 10)];
      assert s[..|s| - 1] == prefix;
      s
  }

  /** The text `${n}` of an integer-valued number: a minus sign for negative
      numbers, then the decimal numeral of the magnitude. Negative zero has
      no counterpart among integers, and prints as "0" in JavaScript too. */
  function IntToText(n: int): (s: string)
    ensures ParseInt(s) == Some(n)
  {
    if n < 0 then
      var digits := NatToNumeral(-n);
      var s := "-" + digits;
      assert s[1..] == digits;
      s
    else NatToNumeral(n)
  }

  /** The inverse of IntToText: accepts exactly the texts it produces. */
  function ParseInt(s: string): (r: Option<int>)
  {
    if |s| > 0 && s[0] == '-' then
      if IsCanonicalNumeral(s[1..]) && s[1..] != "0" then Some(-(NumeralValue(s[1..]) as int)) else None
    else if IsCanonicalNumeral(s) then Some(NumeralValue(s))
    else None
  }

  /** A canonical numeral is the printed form of the number it denotes. */
  lemma {:induction false} NumeralOfValue(s: string)
    requires IsCanonicalNumeral(s)
    ensures NatToNumeral(NumeralValue(s)) == s
    decreases |s|
  {
    if |s| > 1 {
      var prefix := s[..|s| - 1];
      var d := s[|s| - 1] as int - '0' as int;
      assert IsCanonicalNumeral(prefix);
      NumeralOfValue(prefix);
      var n := NumeralValue(s);
      assert n == NumeralValue(prefix) * 10 + d;
      assert NumeralValue(prefix) >= 1;
      assert n / 10 == NumeralValue(prefix) && n % 10 == d;
      assert DigitChar(d) == s[|s| - 1];
      assert s == prefix + [s[|s| - 1]];
    } else {
      assert s[..0] == [];
    }
  }

  /** Parsing and printing are inverse in both directions: every text that
      parses is the printed form of the integer it parses to. */
  lemma ParsedTextIsPrinted(s: string, n: int)
    requires ParseInt(s) == Some(n)
    ensures IntToText(n) == s
  {
    if |s| > 0 && s[0] == '-' {
      NumeralOfValue(s[1..]);
      assert s == "-" + s[1..];
    } else {
      NumeralOfValue(s);
    }
  }

  /** Two integers print the same exactly when they are equal. */
  lemma IntToTextInjective(a: int, b: int)
    requires IntToText(a) == IntToText(b)
    ensures a == b
  {
  }
}
