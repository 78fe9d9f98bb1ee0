/**
 * The JavaScript number operations behind the creativity-to-temperature option:
 * `parseFloat`, `Math.max(0.0, x)` and `Number.prototype.toFixed(1)`.
 * Finite numbers are exact reals; binary floating point is not modelled.
 */
module JsNumber {
  import opened JsString

  /** A JavaScript number: finite (an exact real), NaN, or one of the two infinities. */
  datatype Number = Finite(value: real) | NaN | Infinity(negative: bool)

  predicate IsDigit(c: char)
  {
    '0' <= c <= '9'
  }

  predicate AllDigits(s: string)
  {
    forall k :: 0 <= k < |s| ==> IsDigit(s[k])
  }

  function DigitChar(d: nat): (c: char)
    requires d < 10
    ensures IsDigit(c)
  {
    ('0' as int + d) as char
  }

  function DigitValue(c: char): (d: nat)
    requires IsDigit(c)
    ensures d < 10 && DigitChar(d) == c
  {
    c as int - '0' as int
  }

  /** The length of the longest run of decimal digits at the start of `s`. */
  function DigitRun(s: string): (n: nat)
    ensures n <= |s| && AllDigits(s[..n])
    ensures n < |s| ==> !IsDigit(s[n])
  {
    if |s| > 0 && IsDigit(s[0]) then
      var n := 1 + DigitRun(s[1..]);
      assert s[..n] == [s[0]] + s[1..][..n - 1];
      n
    else 0
  }

  /** The value of a string of decimal digits (most significant first); "" is 0. */
  function DigitsValue(d: string): nat
    requires AllDigits(d)
  {
    if |d| == 0 then 0 else DigitsValue(d[..|d| - 1]) * 10 + DigitValue(d[|d| - 1])
  }

  /** The decimal numeral of `n` without leading zeros (`n.toString()` for a natural number). */
  function Decimal(n: nat): (s: string)
    ensures |s| > 0 && AllDigits(s)
    ensures |s| > 1 ==> s[0] != '0'
  {
    if n < 10 then [DigitChar(n)] else Decimal(n / 10) + [DigitChar(n % 10)]
  }

  /** Reading back the numeral `Decimal(n)` gives `n`. */
  lemma {:induction false} DecimalRoundTrip(n: nat)
    ensures DigitsValue(Decimal(n)) == n
  {
    if n >= 10 {
      var s := Decimal(n);
      assert s[..|s| - 1] == Decimal(n / 10);
      DecimalRoundTrip(n / 10);
    }
  }

  /** The exponent of the ExponentPart (`e` or `E`, an optional sign, digits) at the start of
      `s`, or 0 when `s` does not start with a complete one. */
  function ExponentOf(s: string): int
  {
    if |s| >= 2 && (s[0] == 'e' || s[0] == 'E') then
      var digits := if s[1] == '+' || s[1] == '-' then s[2..] else s[1..];
      var n := DigitRun(digits);
      if n == 0 then 0
      else if s[1] == '-' then -(DigitsValue(digits[..n]) as int)
      else DigitsValue(digits[..n])
    else 0
  }

  /** `m` times ten to the power `e`, one factor of ten at a time. */
  function Scale(m: real, e: int): real
    decreases if e >= 0 then e else -e
  {
    if e == 0 then m else if e > 0 then Scale(m, e - 1) * 10.0 else Scale(m, e + 1) / 10.0
  }

  /** Whether `s` starts with `prefix`. */
  predicate StartsWith(s: string, prefix: string)
  {
    |prefix| == 0 || (|s| > 0 && s[0] == prefix[0] && StartsWith(s[1..], prefix[1..]))
  }

  /** `parseFloat(s)`: skips leading whitespace and reads the longest prefix that is a
      decimal literal (an optional sign, then `Infinity` or an unsigned decimal); NaN when
      there is no such prefix. */
  function ParseFloat(s: string): Number
  {
    var t := TrimStart(s);
    if |t| > 0 && t[0] == '-' then Negate(ParseUnsigned(t[1..]))
    else if |t| > 0 && t[0] == '+' then ParseUnsigned(t[1..])
    else ParseUnsigned(t)
  }

  function Negate(x: Number): Number
  {
    match x
    case NaN => NaN
    case Infinity(negative) => Infinity(!negative)
    case Finite(v) => Finite(-v)
  }

  /** The longest unsigned decimal literal at the start of `u`: `Infinity`, or digits with an
      optional fraction (at least one digit on either side of the point) and an optional
      exponent. */
  function ParseUnsigned(u: string): Number
  {
    if StartsWith(u, "Infinity") then Infinity(false)
    else
      var i := DigitRun(u);
      ParseAfterDigits(u[..i], u[i..])
  }

  /** Continues after the integer digits `whole`: an optional point with fraction digits,
      then the exponent. */
  function ParseAfterDigits(whole: string, rest: string): Number
    requires AllDigits(whole)
  {
    if |rest| > 0 && rest[0] == '.' then
      var f := DigitRun(rest[1..]);
      DecimalValue(whole, rest[1..][..f], rest[1..][f..])
    else DecimalValue(whole, "", rest)
  }

  /** The value of `whole.fraction` scaled by the exponent at the start of `after`;
      NaN when there is no digit on either side of the point. */
  function DecimalValue(whole: string, fraction: string, after: string): Number
    requires AllDigits(whole) && AllDigits(fraction)
  {
    if |whole| == 0 && |fraction| == 0 then NaN
    else
      var mantissa := DigitsValue(whole) as real + Scale(DigitsValue(fraction) as real, -|fraction|);
      Finite(Scale(mantissa, ExponentOf(after)))
  }

  /** `Math.max(0.0, x)`: NaN stays NaN, anything below zero becomes zero. */
  function MaxWithZero(x: Number): (r: Number)
    ensures x.NaN? <==> r.NaN?
    ensures r.Finite? ==> r.value >= 0.0 && (x.Finite? ==> r.value >= x.value)
    ensures r.Infinity? ==> !r.negative
    ensures x.Finite? && x.value >= 0.0 ==> r == x
    ensures x.Finite? && x.value < 0.0 ==> r == Finite(0.0)
    ensures x == Infinity(true) ==> r == Finite(0.0)
    ensures x == Infinity(false) ==> r == x
  {
    match x
    case NaN => NaN
    case Infinity(negative) => if negative then Finite(0.0) else x
    case Finite(v) => if v > 0.0 then x else Finite(0.0)
  }

  /** The number of tenths closest to `x`, ties going up (`toFixed`'s choice of the larger n). */
  function RoundToTenths(x: real): (n: int)
    requires x >= 0.0
    ensures n >= 0
    ensures x * 10.0 - 0.5 < n as real <= x * 10.0 + 0.5
  {
    (x * 10.0 + 0.5).Floor
  }

  /** The one-decimal numeral of `n` tenths, e.g. 7 gives "0.7" and 123 gives "12.3". */
  function TenthsString(n: nat): string
  {
    Decimal(n / 10) + "." + [DigitChar(n % 10)]
  }

  /** `x.toFixed(1)`. Values of 10^21 and more, which JavaScript prints in exponent form,
      are printed positionally here. */
  function ToFixed1(x: Number): string
  {
    match x
    case NaN => "NaN"
    case Infinity(negative) => if negative then "-Infinity" else "Infinity"
    case Finite(v) =>
      if v < 0.0 then "-" + TenthsString(RoundToTenths(-v)) else TenthsString(RoundToTenths(v))
  }

  /** `parseFloat` reads a numeral `whole.frac` as exactly its decimal value. */
  lemma DecimalNumeralValue(s: string, whole: string, frac: string)
    requires |whole| > 0 && AllDigits(whole) && AllDigits(frac) && s == whole + "." + frac
    ensures ParseFloat(s) ==
      Finite(DigitsValue(whole) as real + Scale(DigitsValue(frac) as real, -|frac|))
  {
    LeadingDigitsAreRead(whole, "." + frac);
    AppendIsAssociative(whole, ".", frac);
    assert ("." + frac)[1..] == frac;
    DigitRunOfDigits(frac);
    assert frac[..|frac|] == frac && frac[|frac|..] == "";
    assert ParseAfterDigits(whole, "." + frac) == DecimalValue(whole, frac, "");
    ScaleByNoExponent(whole, frac);
  }

  /** A numeral that starts with its digit run `whole` (followed by a non-digit, or nothing)
      is read from those digits on. */
  lemma LeadingDigitsAreRead(whole: string, rest: string)
    requires |whole| > 0 && AllDigits(whole)
    requires rest == "" || !IsDigit(rest[0])
    ensures ParseFloat(whole + rest) == ParseAfterDigits(whole, rest)
  {
    var s := whole + rest;
    assert IsDigit(s[0]);
    UnsignedNumeral(s);
    WholeDigitRun(s, whole, rest);
  }

  /** The digit run at the start of `whole + rest` is `whole`, and it is not `Infinity`. */
  lemma WholeDigitRun(s: string, whole: string, rest: string)
    requires |whole| > 0 && AllDigits(whole) && s == whole + rest
    requires rest == "" || !IsDigit(rest[0])
    ensures ParseUnsigned(s) == ParseAfterDigits(whole, rest)
  {
    assert IsDigit(s[0]) && !StartsWith(s, "Infinity");
    if rest == "" {
      assert s == whole;
      DigitRunOfDigits(whole);
    } else {
      DigitRunOfNumeral(whole, rest);
    }
    assert s[..|whole|] == whole && s[|whole|..] == rest;
  }


  /** Without an exponent the value of a decimal is its mantissa. */
  lemma ScaleByNoExponent(whole: string, frac: string)
    requires |whole| > 0 && AllDigits(whole) && AllDigits(frac)
    ensures DecimalValue(whole, frac, "") ==
      Finite(DigitsValue(whole) as real + Scale(DigitsValue(frac) as real, -|frac|))
  {
    var m := DigitsValue(whole) as real + Scale(DigitsValue(frac) as real, -|frac|);
    assert ExponentOf("") == 0;
    assert Scale(m, 0) == m;
  }

  /** A numeral that starts with a digit has no whitespace or sign to skip. */
  lemma UnsignedNumeral(numeral: string)
    requires |numeral| > 0 && IsDigit(numeral[0])
    ensures ParseFloat(numeral) == ParseUnsigned(numeral)
  {
    assert TrimStart(numeral) == numeral;
  }

  /** A minus sign before a digit is read as the sign. */
  lemma MinusSign(s: string, numeral: string)
    requires |numeral| > 0 && IsDigit(numeral[0]) && s == "-" + numeral
    ensures ParseFloat(s) == Negate(ParseUnsigned(numeral))
  {
    assert TrimStart(s) == s;
    assert s[1..] == numeral;
  }

  /** A leading minus sign negates the parse of a numeral that starts with a digit. */
  lemma NegativeNumeral(numeral: string)
    requires |numeral| > 0 && IsDigit(numeral[0])
    ensures ParseFloat("-" + numeral) == Negate(ParseFloat(numeral))
  {
    MinusSign("-" + numeral, numeral);
    UnsignedNumeral(numeral);
  }


  /** `parseFloat` reads a string of digits as its value. */
  lemma IntegerNumeralValue(digits: string)
    requires |digits| > 0 && AllDigits(digits)
    ensures ParseFloat(digits) == Finite(DigitsValue(digits) as real)
  {
    assert ParseFloat(digits) == ParseAfterDigits(digits, "") by {
      LeadingDigitsAreRead(digits, "");
      assert digits + "" == digits;
    }
    IntegerValue(digits);
  }

  lemma IntegerValue(digits: string)
    requires |digits| > 0 && AllDigits(digits)
    ensures ParseAfterDigits(digits, "") == Finite(DigitsValue(digits) as real)
  {
    assert ParseAfterDigits(digits, "") == DecimalValue(digits, "", "");
    ScaleByNoExponent(digits, "");
    assert DigitsValue("") == 0 && Scale(0.0, -|""|) == 0.0;
  }

  /** `parseFloat` reads a one-decimal numeral back as exactly that many tenths, so
      `parseFloat(x.toFixed(1))` is `x` rounded to one decimal. */
  lemma TenthsRoundTrip(n: nat)
    ensures ParseFloat(TenthsString(n)) == Finite(n as real / 10.0)
  {
    WholeAndTenth(TenthsString(n), n / 10, n % 10);
    TenthsSplit(n);
  }

  /** `parseFloat` reads the numeral of `q` followed by one decimal `r` as `q + r / 10`. */
  lemma WholeAndTenth(s: string, q: nat, r: nat)
    requires r < 10 && s == Decimal(q) + "." + [DigitChar(r)]
    ensures ParseFloat(s) == Finite(q as real + r as real / 10.0)
  {
    var whole, last := Decimal(q), [DigitChar(r)];
    DecimalNumeralValue(s, whole, last);
    DecimalRoundTrip(q);
    OneDecimalValue(last, r);
  }

  /** The fraction digits `r` stand for `r / 10`. */
  lemma OneDecimalValue(frac: string, r: nat)
    requires r < 10 && frac == [DigitChar(r)]
    ensures AllDigits(frac) && Scale(DigitsValue(frac) as real, -|frac|) == r as real / 10.0
  {
    SingleDigitValue(r);
    assert Scale(r as real, 0) == r as real;
  }

  lemma SingleDigitValue(d: nat)
    requires d < 10
    ensures DigitsValue([DigitChar(d)]) == d
  {
    assert [DigitChar(d)][..0] == "";
  }

  lemma TenthsSplit(n: nat)
    ensures (n / 10) as real + (n % 10) as real / 10.0 == n as real / 10.0
  {
    var q, r := n / 10, n % 10;
    assert n == q * 10 + r;
  }

  /** The digit run at the start of `digits + tail` is `digits` when `tail` does not start with a digit. */
  lemma {:induction false} DigitRunOfNumeral(digits: string, tail: string)
    requires AllDigits(digits)
    requires |tail| > 0 && !IsDigit(tail[0])
    ensures DigitRun(digits + tail) == |digits|
  {
    if |digits| > 0 {
      assert (digits + tail)[1..] == digits[1..] + tail;
      DigitRunOfNumeral(digits[1..], tail);
    }
  }

  /** A string made only of digits is one digit run. */
  lemma {:induction false} DigitRunOfDigits(digits: string)
    requires AllDigits(digits)
    ensures DigitRun(digits) == |digits|
  {
    if |digits| > 0 {
      DigitRunOfDigits(digits[1..]);
    }
  }

  /** Fewer than ten tenths print with a zero before the point. */
  lemma SmallTenths(n: nat)
    requires n < 10
    ensures TenthsString(n) == ['0', '.', DigitChar(n)]
  {
    assert n / 10 == 0 && n % 10 == n;
    assert Decimal(0) == ['0'];
  }

  /** `toFixed(1)` prints a zero-or-positive finite value as the numeral of its rounded tenths,
      and reading that numeral back is within half a tenth of the value. */
  lemma FixedIsRounding(v: real)
    requires v >= 0.0
    ensures ToFixed1(Finite(v)) == TenthsString(RoundToTenths(v))
    ensures match ParseFloat(ToFixed1(Finite(v)))
      case Finite(w) => v - 0.05 < w <= v + 0.05
      case _ => false
  {
    TenthsRoundTrip(RoundToTenths(v));
  }
}
