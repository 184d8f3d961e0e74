/** `parseFloat` as ECMAScript defines it, on exact reals: leading white
    space is skipped, then the longest prefix that reads as a signed decimal
    literal (or `Infinity`) gives the value, and whatever follows it is
    ignored; without such a prefix the result is `NaN`. */
module NumberParse {
  import opened Optional
  import opened Text

  datatype JsNumber = Finite(value: real) | PosInfinity | NegInfinity | NotANumber

  /** The number of decimal digits `s` starts with. */
  function LeadingDigits(s: string): (n: nat)
    ensures n <= |s|
    ensures forall i :: 0 <= i < n ==> IsDigit(s[i])
    ensures n < |s| ==> !IsDigit(s[n])
  {
    if s == [] || !IsDigit(s[0]) then 0 else 1 + LeadingDigits(s[1..])
  }

  /** `10^e` for any integer exponent. */
  function Pow10(e: int): (p: real)
    ensures p > 0.0
  {
    if e >= 0 then Pow10Nat(e) as real else 1.0 / Pow10Nat(-e) as real
  }

  /** The exponent part `e±digits` at the start of `s`, or 0 when there is none. */
  function ExponentOf(s: string): int
  {
    if s != [] && (s[0] == 'e' || s[0] == 'E') then
      var t := s[1..];
      var negative := t != [] && t[0] == '-';
      var u := if t != [] && (t[0] == '-' || t[0] == '+') then t[1..] else t;
      var d := LeadingDigits(u);
      if d == 0 then 0
      else if negative then -(DigitsValue(u[..d]) as int)
      else DigitsValue(u[..d])
    else 0
  }

  /** The unsigned part after the sign: digits with an optional fraction and
      exponent; `None` when no digit is there. */
  function ParseUnsigned(u: string): Option<real>
  {
    var k := LeadingDigits(u);
    ParseAfterWhole(u[..k], u[k..])
  }

  /** The whole digits have been read; a point may start a fraction. */
  function ParseAfterWhole(whole: string, rest: string): Option<real>
    requires forall i :: 0 <= i < |whole| ==> IsDigit(whole[i])
  {
    if rest != [] && rest[0] == '.' then ParseFraction(whole, rest[1..])
    else if whole == [] then None
    else Some(DigitsValue(whole) as real * Pow10(ExponentOf(rest)))
  }

  /** The exact value of the numeral `whole.fraction`. */
  function DecimalValue(whole: string, fraction: string): real
    requires forall i :: 0 <= i < |whole| ==> IsDigit(whole[i])
    requires forall i :: 0 <= i < |fraction| ==> IsDigit(fraction[i])
  {
    DigitsValue(whole) as real + DigitsValue(fraction) as real / Pow10Nat(|fraction|) as real
  }

  /** The whole digits and a point have been read; the fraction's digits follow. */
  function ParseFraction(whole: string, after: string): Option<real>
    requires forall i :: 0 <= i < |whole| ==> IsDigit(whole[i])
  {
    var f := LeadingDigits(after);
    if whole == [] && f == 0 then None
    else
      Some(DecimalValue(whole, after[..f]) * Pow10(ExponentOf(after[f..])))
  }

  /** The magnitude after the sign: `Infinity`, a decimal literal, or nothing readable. */
  function ParseMagnitude(u: string): JsNumber
  {
    if |u| >= 8 && u[..8] == "Infinity" then PosInfinity
    else
      match ParseUnsigned(u)
      case None => NotANumber
      case Some(m) => Finite(m)
  }

  function Negate(x: JsNumber): JsNumber
  {
    match x
    case Finite(v) => Finite(-v)
    case PosInfinity => NegInfinity
    case NegInfinity => PosInfinity
    case NotANumber => NotANumber
  }

  /** An optional sign followed by a magnitude. */
  function ParseSigned(t: string): JsNumber
  {
    if t != [] && t[0] == '-' then Negate(ParseMagnitude(t[1..]))
    else if t != [] && t[0] == '+' then ParseMagnitude(t[1..])
    else ParseMagnitude(t)
  }

  /** `parseFloat(s)`. */
  function ParseFloat(s: string): (r: JsNumber)
    ensures AllSpace(s) ==> r == NotANumber
  {
    var t := TrimStart(s);
    TrimStartShape(s);
    ParseSigned(t)
  }

  lemma {:induction false} LeadingDigitsOfDigits(s: string, tail: string)
    requires forall i :: 0 <= i < |s| ==> IsDigit(s[i])
    requires tail == [] || !IsDigit(tail[0])
    ensures LeadingDigits(s + tail) == |s|
  {
    if s != [] {
      assert (s + tail)[1..] == s[1..] + tail;
      LeadingDigitsOfDigits(s[1..], tail);
    } else {
      assert s + tail == tail;
    }
  }

  lemma {:induction false} TrimStartSkipsSpace(w: string, s: string)
    requires AllSpace(w)
    ensures TrimStart(w + s) == TrimStart(s)
  {
    if w != [] {
      assert (w + s)[1..] == w[1..] + s;
      TrimStartSkipsSpace(w[1..], s);
    } else {
      assert w + s == s;
    }
  }

  /** Leading white space does not change the result. */
  lemma ParseFloatSkipsSpace(w: string, s: string)
    requires AllSpace(w)
    ensures ParseFloat(w + s) == ParseFloat(s)
  {
    TrimStartSkipsSpace(w, s);
    assert ParseFloat(w + s) == ParseSigned(TrimStart(w + s));
  }

  /** What starts with a digit is read without a sign or `Infinity`. */
  lemma ParseFloatStartingWithDigit(s: string)
    requires s != [] && IsDigit(s[0])
    ensures ParseFloat(s) == match ParseUnsigned(s) case None => NotANumber case Some(m) => Finite(m)
  {
    assert TrimStart(s) == s;
    assert ParseSigned(s) == ParseMagnitude(s);
    assert s[0] != 'I';
    assert !(|s| >= 8 && s[..8] == "Infinity");
  }

  lemma NoExponent(tail: string, m: real)
    requires tail == [] || (tail[0] != 'e' && tail[0] != 'E')
    ensures m * Pow10(ExponentOf(tail)) == m
  {
    assert Pow10(ExponentOf(tail)) == 1.0;
  }

  lemma UnsignedOfDigits(whole: string, rest: string)
    requires forall i :: 0 <= i < |whole| ==> IsDigit(whole[i])
    requires rest == [] || !IsDigit(rest[0])
    ensures ParseUnsigned(whole + rest) == ParseAfterWhole(whole, rest)
  {
    LeadingDigitsOfDigits(whole, rest);
    assert (whole + rest)[..|whole|] == whole && (whole + rest)[|whole|..] == rest;
  }

  lemma UnsignedWhole(whole: string, tail: string)
    requires AllDigits(whole)
    requires tail == [] || (!IsDigit(tail[0]) && tail[0] != '.' && tail[0] != 'e' && tail[0] != 'E')
    ensures ParseUnsigned(whole + tail) == Some(DigitsValue(whole) as real)
  {
    UnsignedOfDigits(whole, tail);
    NoExponent(tail, DigitsValue(whole) as real);
  }

  lemma UnsignedDecimal(whole: string, fraction: string, tail: string)
    requires AllDigits(whole) && forall i :: 0 <= i < |fraction| ==> IsDigit(fraction[i])
    requires tail == [] || (!IsDigit(tail[0]) && tail[0] != 'e' && tail[0] != 'E')
    ensures ParseUnsigned(whole + "." + fraction + tail) == Some(DecimalValue(whole, fraction))
  {
    var after := fraction + tail;
    var rest := ['.'] + after;
    assert whole + "." + fraction + tail == whole + rest;
    UnsignedOfDigits(whole, rest);
    assert rest[1..] == after;
    assert ParseAfterWhole(whole, rest) == ParseFraction(whole, after);
    LeadingDigitsOfDigits(fraction, tail);
    assert after[..|fraction|] == fraction && after[|fraction|..] == tail;
    NoExponent(tail, DecimalValue(whole, fraction));
  }

  /** A decimal numeral with a fraction, followed by anything that cannot
      continue it, reads as its exact value. */
  lemma ParseFloatDecimal(whole: string, fraction: string, tail: string)
    requires AllDigits(whole) && forall i :: 0 <= i < |fraction| ==> IsDigit(fraction[i])
    requires tail == [] || (!IsDigit(tail[0]) && tail[0] != 'e' && tail[0] != 'E')
    ensures ParseFloat(whole + "." + fraction + tail) == Finite(DecimalValue(whole, fraction))
  {
    var s := whole + "." + fraction + tail;
    assert s[0] == whole[0];
    ParseFloatStartingWithDigit(s);
    UnsignedDecimal(whole, fraction, tail);
  }

  /** A string of digits followed by anything that cannot continue a number
      reads as the digits' value: trailing text is ignored. */
  lemma ParseFloatWhole(whole: string, tail: string)
    requires AllDigits(whole)
    requires tail == [] || (!IsDigit(tail[0]) && tail[0] != '.' && tail[0] != 'e' && tail[0] != 'E')
    ensures ParseFloat(whole + tail) == Finite(DigitsValue(whole) as real)
  {
    var s := whole + tail;
    assert s[0] == whole[0];
    ParseFloatStartingWithDigit(s);
    UnsignedWhole(whole, tail);
  }

  /** A leading minus sign negates the value of what follows it. */
  lemma ParseFloatNegates(s: string)
    requires s == [] || (!IsSpace(s[0]) && s[0] != '-' && s[0] != '+')
    ensures ParseFloat("-" + s) == Negate(ParseFloat(s))
    ensures ParseFloat("-" + s).Finite? <==> ParseFloat(s).Finite?
    ensures ParseFloat(s).Finite? ==> ParseFloat("-" + s).value == -ParseFloat(s).value
  {
    var t := "-" + s;
    assert t[1..] == s && t[0] == '-';
    assert TrimStart(t) == t;
    assert ParseFloat(t) == ParseSigned(t) == Negate(ParseMagnitude(s));
    assert TrimStart(s) == s;
    assert ParseFloat(s) == ParseSigned(s) == ParseMagnitude(s);
  }

  lemma DigitsOfTheExample()
    ensures DecimalValue("999999", "995") == 999999.995
  {
    assert Pow10Nat(3) == 1000;
    assert "999999"[..5] == "99999" && "99999"[..4] == "9999" && "9999"[..3] == "999";
    assert "999"[..2] == "99" && "99"[..1] == "9" && "9"[..0] == "";
    assert "995"[..2] == "99";
  }

  /** `parseFloat("999999.995")` is exactly 999999.995. */
  lemma ReadsAsItsValue(s: string)
    requires s == "999999.995"
    ensures ParseFloat(s) == Finite(999999.995)
  {
    var whole, fraction := "999999", "995";
    assert whole + "." + fraction + "" == s;
    ParseFloatDecimal(whole, fraction, "");
    DigitsOfTheExample();
  }
}
