/**
 * How src/App.tsx reads an amount cell: `parseFloat(String(x).replace(',', '.'))`,
 * with a result that is not a number (NaN) taken as 0.
 */
module Amounts {
  import opened Wrappers
  import opened Decimal

  /**
   * `String.replace(',', '.')` with a string pattern: every character is kept
   * except the first comma, which becomes a period.
   */
  function ReplaceFirstComma(s: string): (r: string)
    ensures |r| == |s|
  {
    if s == [] then []
    else if s[0] == ',' then "." + s[1..]
    else [s[0]] + ReplaceFirstComma(s[1..])
  }

  /** Only the first comma becomes a period; every other character stays where it was. */
  lemma {:induction false} ReplaceFirstCommaAt(s: string)
    ensures forall i :: 0 <= i < |s| ==>
      ReplaceFirstComma(s)[i] == (if s[i] == ',' && ',' !in s[..i] then '.' else s[i])
  {
    if s != [] && s[0] == ',' {
      forall i | 0 < i < |s|
        ensures ReplaceFirstComma(s)[i] == s[i] && s[0] in s[..i]
      {
        assert s[..i][0] == s[0];
      }
    } else if s != [] {
      var tail := s[1..];
      ReplaceFirstCommaAt(tail);
      forall i | 0 < i < |s|
        ensures ReplaceFirstComma(s)[i] == (if s[i] == ',' && ',' !in s[..i] then '.' else s[i])
      {
        assert ReplaceFirstComma(s)[i] == ReplaceFirstComma(tail)[i - 1];
        assert s[..i] == [s[0]] + tail[..i - 1];
        assert s[i] == tail[i - 1];
      }
    }
  }

  /** What is left of `s` once its leading white space is skipped. */
  function SkipSpaces(s: string): (t: string)
    ensures |t| <= |s| && t == s[|s| - |t|..]
    ensures t != [] ==> !IsSpace(t[0])
  {
    if s != [] && IsSpace(s[0]) then SkipSpaces(s[1..]) else s
  }

  /** The exponent of a well-formed exponent part (`e`, an optional sign, digits) at the start of `s`; 0 when there is none. */
  function ExponentOf(s: string): int {
    if s == [] || (s[0] != 'e' && s[0] != 'E') then 0
    else
      var t := s[1..];
      var u := if t != [] && (t[0] == '-' || t[0] == '+') then t[1..] else t;
      var n := DigitRun(u);
      if n == 0 then 0
      else if t[0] == '-' then -(DigitsValue(u[..n]) as int)
      else DigitsValue(u[..n])
  }

  /** `m` times ten to the power `e`. */
  function Scale(m: real, e: int): real
    decreases if e < 0 then -e else e
  {
    if e == 0 then m
    else if e > 0 then 10.0 * Scale(m, e - 1)
    else Scale(m, e + 1) / 10.0
  }

  /** The value of the digits after a decimal point. */
  function FractionValue(fraction: string): real
    requires AllDigits(fraction)
  {
    if fraction == [] then 0.0
    else (DigitValue(fraction[0]) as real + FractionValue(fraction[1..])) / 10.0
  }

  /** The value of the decimal mantissa `whole.fraction`. */
  function Mantissa(whole: string, fraction: string): real
    requires AllDigits(whole) && AllDigits(fraction)
  {
    DigitsValue(whole) as real + FractionValue(fraction)
  }

  /** The longest unsigned decimal literal (digits, a fraction, an exponent) that starts `u`. */
  function ParseUnsigned(u: string): Option<real> {
    var whole := DigitRun(u);
    AfterWholePart(u[..whole], u[whole..])
  }

  /** The literal whose integer digits `whole` are followed by `rest`. */
  function AfterWholePart(whole: string, rest: string): Option<real>
    requires AllDigits(whole)
  {
    if rest != [] && rest[0] == '.' then AfterPoint(whole, rest[1..])
    else if whole == [] then None
    else Some(Scale(DigitsValue(whole) as real, ExponentOf(rest)))
  }

  /** The literal whose integer digits `whole` and a point are followed by `rest`. */
  function AfterPoint(whole: string, rest: string): Option<real>
    requires AllDigits(whole)
  {
    var frac := DigitRun(rest);
    if whole == [] && frac == 0 then None
    else Some(Scale(Mantissa(whole, rest[..frac]), ExponentOf(rest[frac..])))
  }

  function Negate(r: Option<real>): Option<real> {
    match r
    case None => None
    case Some(v) => Some(-v)
  }

  /**
   * JavaScript's `parseFloat`: after leading white space, an optional sign and
   * the longest decimal literal that follows; `None` (NaN) when no digit
   * starts it.
   */
  function ParseFloat(s: string): Option<real> {
    var t := SkipSpaces(s);
    var v := ParseUnsigned(Unsigned(t));
    if t != [] && t[0] == '-' then Negate(v) else v
  }

  /** `t` without its sign, if it has one. */
  function Unsigned(t: string): (u: string)
    ensures u == t || (t != [] && (t[0] == '-' || t[0] == '+') && u == t[1..])
  {
    if t != [] && (t[0] == '-' || t[0] == '+') then t[1..] else t
  }

  /** An amount cell's value: its text with the first comma made a period, read by `parseFloat`, NaN taken as 0. */
  function ParseAmount(text: string): real {
    match ParseFloat(ReplaceFirstComma(text))
    case None => 0.0
    case Some(v) => v
  }

  /** An amount of `cents` hundredths written with two decimals and the decimal separator `sep`, e.g. `580,00` or `-12.50`. */
  function AmountText(cents: int, sep: char): string {
    if cents < 0 then "-" + MagnitudeText(-cents, sep) else MagnitudeText(cents, sep)
  }

  /** The digits of an amount of `magnitude` hundredths: the units, `sep`, two decimals. */
  function MagnitudeText(magnitude: nat, sep: char): string {
    Numeral(magnitude / 100) + [sep] + Digits(magnitude % 100, 2)
  }

  lemma {:induction false} ReplaceAfterCommaFree(p: string, q: string)
    requires ',' !in p
    ensures ReplaceFirstComma(p + q) == p + ReplaceFirstComma(q)
  {
    if p != [] {
      assert (p + q)[1..] == p[1..] + q;
      assert p == [p[0]] + p[1..];
      ReplaceAfterCommaFree(p[1..], q);
    } else {
      assert p + q == q;
    }
  }

  /** A plain decimal `w.ff`, followed by a separator or nothing, reads as its mantissa. */
  lemma PlainDecimal(w: string, f: string, tail: string)
    requires |w| >= 1 && AllDigits(w) && |f| >= 1 && AllDigits(f)
    requires tail == [] || tail[0] == ',' || tail[0] == '.'
    ensures ParseUnsigned(w + "." + f + tail) == Some(Mantissa(w, f))
  {
    var rest := "." + f + tail;
    assert w + "." + f + tail == w + rest;
    assert rest[1..] == f + tail;
    WholeDigits(w, rest);
    PointDigits(w, f, tail);
  }

  lemma WholeDigits(w: string, rest: string)
    requires AllDigits(w) && (rest == [] || !IsDigit(rest[0]))
    ensures ParseUnsigned(w + rest) == AfterWholePart(w, rest)
  {
    DigitRunOf(w, rest);
    assert (w + rest)[..|w|] == w && (w + rest)[|w|..] == rest;
  }

  lemma PointDigits(w: string, f: string, tail: string)
    requires AllDigits(w) && |f| >= 1 && AllDigits(f)
    requires tail == [] || tail[0] == ',' || tail[0] == '.'
    ensures AfterPoint(w, f + tail) == Some(Mantissa(w, f))
  {
    DigitRunOf(f, tail);
    assert (f + tail)[..|f|] == f && (f + tail)[|f|..] == tail;
    assert ExponentOf(tail) == 0;
  }

  /** The mantissa of an amount written with two decimals is the amount. */
  lemma {:induction false} AmountMantissa(magnitude: nat)
    ensures Mantissa(Numeral(magnitude / 100), Digits(magnitude % 100, 2)) == magnitude as real / 100.0
  {
    NumeralRoundTrip(magnitude / 100);
    TwoDecimals(magnitude % 100);
    assert (magnitude / 100) as real + (magnitude % 100) as real / 100.0 == magnitude as real / 100.0;
  }

  lemma {:induction false} TwoDecimals(hundredths: nat)
    requires hundredths < 100
    ensures FractionValue(Digits(hundredths, 2)) == hundredths as real / 100.0
  {
    var tens, units := DigitChar(hundredths / 10), DigitChar(hundredths % 10);
    var f := Digits(hundredths, 2);
    assert Digits(hundredths / 10, 1) == Digits(hundredths / 100, 0) + [tens];
    assert f == [tens, units];
    assert f[1..] == [units];
    assert FractionValue([units]) == (hundredths % 10) as real / 10.0 by {
      assert [units][1..] == [];
    }
    assert hundredths == 10 * (hundredths / 10) + hundredths % 10;
  }

  lemma PlainLiteral(u: string)
    requires |u| > 0 && IsDigit(u[0])
    ensures ParseFloat(u) == ParseUnsigned(u)
  {
    assert SkipSpaces(u) == u by {
      assert !IsSpace(u[0]);
    }
  }

  lemma MinusLiteral(u: string)
    ensures ParseFloat("-" + u) == Negate(ParseUnsigned(u))
  {
    var s := "-" + u;
    assert SkipSpaces(s) == s by {
      assert s[0] == '-';
    }
    assert Unsigned(s) == u;
  }

  /**
   * An amount written with two decimals reads back as itself, whether its
   * separator is a comma or a period; a second separator after it ends the
   * number, because only the first comma is replaced.
   */
  lemma AmountRoundTrip(cents: int, sep: char, tail: string)
    requires sep == ',' || sep == '.'
    requires tail == [] || tail[0] == ',' || tail[0] == '.'
    ensures ParseAmount(AmountText(cents, sep) + tail) == cents as real / 100.0
  {
    if cents < 0 {
      NegativeAmount(cents, sep, tail);
    } else {
      PositiveAmount(cents, sep, tail);
    }
  }

  lemma PositiveAmount(cents: int, sep: char, tail: string)
    requires cents >= 0
    requires sep == ',' || sep == '.'
    requires tail == [] || tail[0] == ',' || tail[0] == '.'
    ensures ParseAmount(AmountText(cents, sep) + tail) == cents as real / 100.0
  {
    var w, f := Numeral(cents / 100), Digits(cents % 100, 2);
    assert AmountText(cents, sep) == MagnitudeText(cents, sep);
    var tail' := MagnitudeReplaced(cents, sep, tail);
    PlainDecimal(w, f, tail');
    assert (w + "." + f + tail')[0] == w[0];
    PlainLiteral(w + "." + f + tail');
    AmountMantissa(cents);
  }

  lemma NegativeAmount(cents: int, sep: char, tail: string)
    requires cents < 0
    requires sep == ',' || sep == '.'
    requires tail == [] || tail[0] == ',' || tail[0] == '.'
    ensures ParseAmount(AmountText(cents, sep) + tail) == cents as real / 100.0
  {
    var magnitude: nat := -cents;
    var w, f := Numeral(magnitude / 100), Digits(magnitude % 100, 2);
    var text := MagnitudeText(magnitude, sep) + tail;
    assert AmountText(cents, sep) + tail == "-" + text;
    ReplaceAfterCommaFree("-", text);
    var tail' := MagnitudeReplaced(magnitude, sep, tail);
    PlainDecimal(w, f, tail');
    MinusLiteral(w + "." + f + tail');
    AmountMantissa(magnitude);
  }

  /** Replacing the first comma of a written amount leaves it with a period and the rest of the text as it was. */
  lemma MagnitudeReplaced(magnitude: nat, sep: char, tail: string) returns (tail': string)
    requires sep == ',' || sep == '.'
    requires tail == [] || tail[0] == ',' || tail[0] == '.'
    ensures tail' == [] || tail'[0] == ',' || tail'[0] == '.'
    ensures ReplaceFirstComma(MagnitudeText(magnitude, sep) + tail)
         == Numeral(magnitude / 100) + "." + Digits(magnitude % 100, 2) + tail'
  {
    var w, f := Numeral(magnitude / 100), Digits(magnitude % 100, 2);
    assert ',' !in w by {
      assert forall i :: 0 <= i < |w| ==> IsDigit(w[i]);
    }
    assert ',' !in f by {
      assert forall i :: 0 <= i < |f| ==> IsDigit(f[i]);
    }
    tail' := SeparatorReplaced(w, sep, f, tail);
  }

  lemma {:induction false} SeparatorReplaced(p: string, sep: char, f: string, tail: string) returns (tail': string)
    requires sep == ',' || sep == '.'
    requires ',' !in p && ',' !in f
    requires tail == [] || tail[0] == ',' || tail[0] == '.'
    ensures tail' == [] || tail'[0] == ',' || tail'[0] == '.'
    ensures ReplaceFirstComma(p + [sep] + f + tail) == p + "." + f + tail'
  {
    assert p + [sep] + f + tail == p + ([sep] + f + tail);
    ReplaceAfterCommaFree(p, [sep] + f + tail);
    if sep == ',' {
      tail' := tail;
      assert ([sep] + f + tail)[1..] == f + tail;
    } else {
      tail' := ReplaceFirstComma(tail);
      assert [sep] + f + tail == ([sep] + f) + tail;
      ReplaceAfterCommaFree([sep] + f, tail);
      if tail != [] {
        assert tail'[0] == (if tail[0] == ',' then '.' else tail[0]);
      }
    }
    assert p + ("." + f + tail') == p + "." + f + tail';
  }

  /** A cell without any digit (an empty cell, the text `undefined`) is not a number and counts as 0. */
  lemma NoDigitsIsZero(text: string)
    requires forall i :: 0 <= i < |text| ==> !IsDigit(text[i])
    ensures ParseAmount(text) == 0.0
  {
    var r := ReplaceFirstComma(text);
    ReplaceFirstCommaAt(text);
    assert forall i :: 0 <= i < |r| ==> !IsDigit(r[i]);
    var t := SkipSpaces(r);
    assert forall i :: 0 <= i < |t| ==> !IsDigit(t[i]);
    if t != [] && (t[0] == '-' || t[0] == '+') {
      NoDigitsNoLiteral(t[1..]);
    } else {
      NoDigitsNoLiteral(t);
    }
  }

  lemma NoDigitsNoLiteral(u: string)
    requires forall i :: 0 <= i < |u| ==> !IsDigit(u[i])
    ensures ParseUnsigned(u) == None
  {
    assert DigitRun(u) == 0;
    assert u[..0] == [] && u[0..] == u;
    if u != [] && u[0] == '.' {
      assert DigitRun(u[1..]) == 0;
    }
  }

  /** Leading white space of any of JavaScript's kinds is skipped, one character at a time. */
  lemma LeadingSpaceSkipped(c: char, s: string)
    requires IsSpace(c)
    ensures ParseFloat([c] + s) == ParseFloat(s)
  {
    assert ([c] + s)[1..] == s;
  }

  /** A no-break space and an ideographic space in front of an amount are skipped. */
  lemma WideSpacesSkipped(s: string)
    ensures ParseFloat("\U{00A0}" + s) == ParseFloat(s)
    ensures ParseFloat("\U{3000}" + s) == ParseFloat(s)
  {
    LeadingSpaceSkipped('\U{00A0}', s);
    LeadingSpaceSkipped('\U{3000}', s);
  }

  /** Scaling a whole number by a non-negative exponent multiplies it by that power of ten; by a negative one, divides by it. */
  lemma {:induction false} ScaleWhole(n: nat, e: nat)
    ensures Scale(n as real, e) == (n * Pow10(e)) as real
    ensures Scale(n as real, -(e as int)) == n as real / Pow10(e) as real
  {
    if e > 0 {
      ScaleWhole(n, e - 1);
      assert n * Pow10(e) == 10 * (n * Pow10(e - 1));
    }
  }

  /** A run of digits taken whole, as the exponent reader takes it. */
  lemma WholeRun(exp: string)
    requires AllDigits(exp)
    ensures DigitRun(exp) == |exp| && exp[..DigitRun(exp)] == exp
  {
    DigitRunOf(exp, []);
    assert exp + [] == exp;
  }

  /** `e` and a run of digits: the exponent is the digits' value. */
  lemma UnsignedExponent(exp: string)
    requires |exp| >= 1 && AllDigits(exp)
    ensures ExponentOf("e" + exp) == DigitsValue(exp)
  {
    assert ("e" + exp)[1..] == exp;
    WholeRun(exp);
  }

  /** `e`, a sign and a run of digits: the exponent is the digits' value, negated after a minus. */
  lemma SignedExponent(sign: char, exp: string)
    requires |exp| >= 1 && AllDigits(exp)
    requires sign == '+' || sign == '-'
    ensures ExponentOf("e" + [sign] + exp) == if sign == '-' then -(DigitsValue(exp) as int) else DigitsValue(exp)
  {
    var t := [sign] + exp;
    assert ("e" + [sign] + exp)[1..] == t;
    assert t[1..] == exp;
    WholeRun(exp);
  }

  /** The exponent part `e`, an optional sign and a run of digits has the digits' value as exponent, negated after a minus. */
  lemma ExponentDigits(exp: string, sign: string)
    requires |exp| >= 1 && AllDigits(exp)
    requires sign == "" || sign == "+" || sign == "-"
    ensures ExponentOf("e" + sign + exp) == if sign == "-" then -(DigitsValue(exp) as int) else DigitsValue(exp)
  {
    if sign == "" {
      assert "e" + sign + exp == "e" + exp;
      UnsignedExponent(exp);
    } else {
      assert sign == [sign[0]];
      SignedExponent(sign[0], exp);
    }
  }

  /** Digits followed by an exponent part read as the digits' value scaled by that exponent. */
  lemma ScientificDigits(whole: string, exp: string, sign: string)
    requires |whole| >= 1 && AllDigits(whole) && |exp| >= 1 && AllDigits(exp)
    requires sign == "" || sign == "+" || sign == "-"
    ensures ParseFloat(whole + "e" + sign + exp) == Some(Scale(DigitsValue(whole) as real, ExponentOf("e" + sign + exp)))
  {
    var rest := "e" + sign + exp;
    assert whole + "e" + sign + exp == whole + rest;
    PlainLiteral(whole + rest);
    WholeDigits(whole, rest);
  }

  /** Digits, `e`, an optional sign and digits read as the first digits' value times, or after a minus divided by, ten to the second's. */
  lemma ScientificValue(whole: string, exp: string, sign: string)
    requires |whole| >= 1 && AllDigits(whole) && |exp| >= 1 && AllDigits(exp)
    requires sign == "" || sign == "+" || sign == "-"
    ensures sign != "-" ==> ParseFloat(whole + "e" + sign + exp) == Some((DigitsValue(whole) * Pow10(DigitsValue(exp))) as real)
    ensures sign == "-" ==> ParseFloat(whole + "e" + sign + exp) == Some(DigitsValue(whole) as real / Pow10(DigitsValue(exp)) as real)
  {
    ScientificDigits(whole, exp, sign);
    ExponentDigits(exp, sign);
    ScaleWhole(DigitsValue(whole), DigitsValue(exp));
  }

  /** An integer with an exponent part, such as `15e3`, `15e+3` or `15e-3`, reads as the integer times ten to the signed exponent. */
  lemma ExponentLiteral(w: nat, e: nat, sign: string)
    requires sign == "" || sign == "+" || sign == "-"
    ensures sign != "-" ==> ParseFloat(Numeral(w) + "e" + sign + Numeral(e)) == Some((w * Pow10(e)) as real)
    ensures sign == "-" ==> ParseFloat(Numeral(w) + "e" + sign + Numeral(e)) == Some(w as real / Pow10(e) as real)
  {
    ScientificValue(Numeral(w), Numeral(e), sign);
    NumeralRoundTrip(w);
    NumeralRoundTrip(e);
  }

  lemma ExponentExampleText()
    ensures Numeral(1) + "e" + "" + Numeral(2) == "1e2" && Pow10(2) == 100
  {
    assert Width(1) == 1 && Width(2) == 1;
    assert Digits(1, 1) == "1" && Digits(2, 1) == "2";
  }

  /** `1e2` reads as 100. */
  lemma ExponentExample(text: string)
    requires text == "1e2"
    ensures ParseFloat(text) == Some(100.0)
  {
    ExponentExampleText();
    ExponentCase(text);
  }

  lemma ExponentCase(text: string)
    requires text == Numeral(1) + "e" + "" + Numeral(2)
    ensures ParseFloat(text) == Some(100.0)
  {
    ExponentLiteral(1, 2, "");
    assert Pow10(2) == 100;
  }

  /** The two ways the merchant's files write five hundred and eighty. */
  lemma DecimalSeparatorExamples(comma: string, period: string)
    requires comma == "580,00" && period == "580.00"
    ensures ParseAmount(comma) == 580.0 && ParseAmount(period) == 580.0
  {
    FiveHundredEighty();
    assert AmountText(58000, ',') + "" == comma;
    assert AmountText(58000, '.') + "" == period;
    PositiveAmount(58000, ',', "");
    PositiveAmount(58000, '.', "");
  }

  lemma FiveHundredEighty()
    ensures Numeral(58000 / 100) == "580" && Digits(58000 % 100, 2) == "00"
  {
    assert Width(580) == 3;
    assert Digits(5, 1) == "5" && Digits(58, 2) == "58";
    assert Digits(0, 1) == "0";
  }
}
