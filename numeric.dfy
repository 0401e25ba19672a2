/** PHP's `is_numeric` and the conversion `(int) round(((float) $x) * 100)`
    that turns a decimal amount into minor units (kobo). The conversion is
    computed on the exact decimal value, rounding half away from zero as
    PHP's `round` does; binary floating point is not modelled. */
module Numeric {
  import opened Php

  function Pow10(n: nat): (r: nat)
    ensures r >= 1
  {
    if n == 0 then 1 else 10 * Pow10(n - 1)
  }

  predicate IsDigit(c: char) { '0' <= c <= '9' }

  predicate IsSpace(c: char) { c == ' ' || c == '\t' || c == '\n' || c == '\r' || c == '\U{0B}' || c == '\U{0C}' }

  /** Length of the run of digits that starts `s`. */
  function DigitSpan(s: string): (n: nat)
    ensures n <= |s|
    ensures forall i :: 0 <= i < n ==> IsDigit(s[i])
    ensures n < |s| ==> !IsDigit(s[n])
  {
    if s != [] && IsDigit(s[0]) then 1 + DigitSpan(s[1..]) else 0
  }

  function DigitsValue(s: string): nat
  {
    if s == [] then 0 else 10 * DigitsValue(s[..|s| - 1]) + (if IsDigit(s[|s| - 1]) then s[|s| - 1] as int - '0' as int else 0)
  }

  function TrimSpace(s: string): (r: string)
    ensures |r| <= |s|
    decreases |s|
  {
    if s != [] && IsSpace(s[0]) then TrimSpace(s[1..])
    else if s != [] && IsSpace(s[|s| - 1]) then TrimSpace(s[..|s| - 1])
    else s
  }

  /** A decimal number as a fraction `num / den`. */
  datatype Rational = Rational(num: int, den: nat)

  /** An optional leading sign: whether it is `-`, and what follows it. */
  function SplitSign(t: string): (bool, string) {
    if t != [] && (t[0] == '-' || t[0] == '+') then (t[0] == '-', t[1..]) else (false, t)
  }

  /** The integer digits, the fraction digits after an optional `.`, and
      what follows them. */
  function SplitMantissa(a: string): (string, string, string) {
    var n1 := DigitSpan(a);
    var b := a[n1..];
    if b != [] && b[0] == '.' then
      var n2 := DigitSpan(b[1..]);
      (a[..n1], b[1..][..n2], b[1..][n2..])
    else (a[..n1], "", b)
  }

  /** An optional exponent `e[+-]digits` that must end the string: its sign
      and magnitude; `None` when the rest is not such an exponent. */
  function ParseExponent(c: string): Option<(bool, nat)> {
    if c == [] then Some((false, 0))
    else if c[0] != 'e' && c[0] != 'E' then None
    else
      var (neg, e) := SplitSign(c[1..]);
      if e != [] && DigitSpan(e) == |e| then Some((neg, DigitsValue(e))) else None
  }

  /** `mantissa * 10^(exponent - fractionDigits)` as a fraction. */
  function Scale(mantissa: int, fractionDigits: nat, expNeg: bool, exp: nat): (r: Rational)
    ensures r.den >= 1
  {
    if expNeg then Rational(mantissa, Pow10(fractionDigits + exp))
    else if exp >= fractionDigits then Rational(mantissa * Pow10(exp - fractionDigits), 1)
    else Rational(mantissa, Pow10(fractionDigits - exp))
  }

  /** Parses the strings PHP 8 calls numeric: optional surrounding
      whitespace, an optional sign, digits with an optional fraction (at
      least one digit in all) and an optional exponent. */
  function ParseNumeric(s: string): (r: Option<Rational>)
    ensures r.Some? ==> r.value.den >= 1
  {
    var (neg, a) := SplitSign(TrimSpace(s));
    var (intPart, fracPart, rest) := SplitMantissa(a);
    if |intPart| + |fracPart| == 0 then None
    else match ParseExponent(rest)
      case None => None
      case Some((expNeg, exp)) =>
        Some(Scale((if neg then -1 else 1) * DigitsValue(intPart + fracPart), |fracPart|, expNeg, exp))
  }

  /** `is_numeric($j)`: integers and numeric strings. */
  predicate IsNumeric(j: Json) {
    j.JInt? || (j.JStr? && ParseNumeric(j.s).Some?)
  }

  /** A string PHP 8 accepts as an arithmetic operand: after leading
      whitespace and an optional sign it starts with a digit, or with a
      point followed by a digit. Trailing text only draws a warning. Any
      other string makes the operator raise a TypeError. */
  predicate LeadingNumeric(s: string) {
    var (neg, a) := SplitSign(TrimSpace(s));
    var (intPart, fracPart, rest) := SplitMantissa(a);
    |intPart| + |fracPart| > 0
  }

  /** The values `$x / 100` accepts: booleans, integers and leading-numeric
      strings (null is excluded by the `isset` that guards the division). */
  predicate ArithmeticOperand(j: Json) {
    j.JBool? || j.JInt? || (j.JStr? && LeadingNumeric(j.s))
  }

  /** The values `$x / 100` divides without a warning: booleans and the
      values `is_numeric` accepts. */
  predicate QuietOperand(j: Json) {
    j.JBool? || IsNumeric(j)
  }

  /** Every numeric string is an arithmetic operand. */
  lemma NumericIsOperand(j: Json)
    ensures IsNumeric(j) ==> ArithmeticOperand(j)
  {
  }

  /** `round(n / d)`, half away from zero. */
  function RoundHalfAway(n: int, d: nat): (r: int)
    requires d >= 1
    ensures n >= 0 ==> 0 <= 2 * (n - r * d) + d < 2 * d
    ensures n < 0 ==> 0 < 2 * (n - r * d) + d <= 2 * d
  {
    if n >= 0 then (2 * n + d) / (2 * d) else -((2 * -n + d) / (2 * d))
  }

  /** The minor-unit amount a sync stores: `is_numeric($x) ? (int) round($x * 100) : 0`. */
  function Kobo(j: Json): (r: int)
    ensures !IsNumeric(j) ==> r == 0
    ensures j.JInt? ==> r == 100 * j.i
  {
    if j.JInt? then 100 * j.i
    else if IsNumeric(j) then
      var q := ParseNumeric(j.s).value;
      RoundHalfAway(100 * q.num, q.den)
    else 0
  }

  /** A third decimal rounds half away from zero. */
  lemma KoboRoundsHalfAway()
    ensures Kobo(JStr("12.345")) == 1235
  {
    var s := "12.345";
    AmountSplits();
    AmountDigits();
    assert SplitSign(TrimSpace(s)) == (false, s);
    assert "12" + "345" == "12345";
    assert Pow10(3) == 1000;
    assert ParseNumeric(s) == Some(Rational(12345, 1000));
  }

  /** "12.345" has no surrounding space, two integer digits and three fraction digits. */
  lemma AmountSplits()
    ensures TrimSpace("12.345") == "12.345" && SplitMantissa("12.345") == ("12", "345", "")
  {
    var s := "12.345";
    assert TrimSpace(s) == s;
    assert DigitSpan(s) == 2 by {
      assert DigitSpan(s[2..]) == 0;
      assert s[1..][1..] == s[2..];
      assert DigitSpan(s[1..]) == 1;
    }
    assert s[..2] == "12" && s[2..] == ".345";
    var f := ".345"[1..];
    assert f == "345";
    assert DigitSpan(f) == 3 by {
      assert f[1..][1..][1..] == [];
      assert f[1..][1..] == "5";
      assert f[1..] == "45";
    }
    assert f[..3] == "345" && f[3..] == [];
  }

  lemma AmountDigits()
    ensures DigitsValue("12345") == 12345
  {
    assert "12345"[..4] == "1234";
    assert "1234"[..3] == "123";
    assert "123"[..2] == "12";
    assert "12"[..1] == "1";
    assert "1"[..0] == "";
  }

  /** A request amount, `mantissa / 10^scale` major units. The request DTOs
      declare it a float; it is carried here as the decimal the caller wrote. */
  datatype Decimal = Decimal(mantissa: int, scale: nat)

  /** `(int) round($amount * 100)`, on the exact decimal value. */
  function ToKobo(d: Decimal): (r: int)
    ensures var den := Pow10(d.scale);
      var n := 100 * d.mantissa;
      (n >= 0 ==> 0 <= 2 * (n - r * den) + den < 2 * den) &&
      (n < 0 ==> 0 < 2 * (n - r * den) + den <= 2 * den)
  {
    RoundHalfAway(100 * d.mantissa, Pow10(d.scale))
  }

  lemma {:induction false} Pow10Add(a: nat, b: nat)
    ensures Pow10(a + b) == Pow10(a) * Pow10(b)
    decreases a
  {
    if a > 0 { Pow10Add(a - 1, b); }
  }

  /** An amount with at most two decimals converts exactly: no rounding. */
  lemma ToKoboExact(d: Decimal)
    requires d.scale <= 2
    ensures ToKobo(d) == d.mantissa * Pow10(2 - d.scale)
  {
    var den := Pow10(d.scale);
    var k := d.mantissa * Pow10(2 - d.scale);
    Pow10Add(d.scale, 2 - d.scale);
    assert Pow10(2) == 100;
    assert 100 * d.mantissa == k * den;
    var r := ToKobo(d);
    if 100 * d.mantissa >= 0 {
      assert 0 <= 2 * (k - r) * den + den < 2 * den;
    } else {
      assert 0 < 2 * (k - r) * den + den <= 2 * den;
    }
    assert -1 < 2 * (k - r) < 1;
  }
}
