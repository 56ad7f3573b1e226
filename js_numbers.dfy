/** The JavaScript number built-ins the application calls: `parseFloat`,
    `Math.round` of a quotient, and `Number.prototype.toString`. Numbers are
    exact reals; NaN is `None` where it can arise. */
module JsNumbers {
  import opened Wrappers
  import opened JsStrings

  /** A dynamically typed JavaScript value as far as the coercions care:
      a number, a string, or anything else (boolean, null, undefined, object). */
  datatype JsValue = JsNumber(n: real) | JsString(s: string) | JsOther

  /** `x || d` for a number: 0 counts as missing. */
  function NumberOr(x: real, d: real): (r: real)
    ensures x == 0.0 ==> r == d
    ensures x != 0.0 ==> r == x
  {
    if x == 0.0 then d else x
  }

  /** The longest prefix of decimal digits. */
  function LeadingDigits(s: string): (d: string)
    ensures AllDigits(d) && |d| <= |s|
  {
    if s != [] && IsDigit(s[0]) then [s[0]] + LeadingDigits(s[1..]) else []
  }

  /** The digits at the start of `d + rest` are exactly `d` when `rest` does not start with a digit. */
  lemma {:induction false} LeadingDigitsOf(d: string, rest: string)
    requires AllDigits(d)
    requires rest == [] || !IsDigit(rest[0])
    ensures LeadingDigits(d + rest) == d
  {
    if d != [] {
      assert (d + rest)[1..] == d[1..] + rest;
      LeadingDigitsOf(d[1..], rest);
    }
  }

  /** The value of the fraction digits `fp` after a decimal point: 0.d1d2... */
  function FractionValue(fp: string): (v: real)
    requires AllDigits(fp)
    ensures 0.0 <= v <= 1.0
  {
    if fp == [] then 0.0 else (DigitValue(fp[0]) as real + FractionValue(fp[1..])) / 10.0
  }

  /** The unsigned decimal literal at the start of `s` (digits, then
      optionally `.` and digits); `None` (NaN) when there is no digit. */
  function ParseUnsigned(s: string): Option<real> {
    var ip := LeadingDigits(s);
    var rest := s[|ip|..];
    var fp := if rest != [] && rest[0] == '.' then LeadingDigits(rest[1..]) else "";
    if ip == [] && fp == [] then None
    else Some(DigitsValue(ip) as real + FractionValue(fp))
  }

  function Negated(v: Option<real>): Option<real> {
    match v
    case Some(x) => Some(-x)
    case None => None
  }

  /** `parseFloat(s)`: skip leading white space, read an optional sign and the
      longest decimal prefix, ignore the rest; `None` stands for NaN. */
  function ParseFloat(s: string): Option<real> {
    var t := TrimStart(s);
    if t != [] && t[0] == '-' then Negated(ParseUnsigned(t[1..]))
    else if t != [] && t[0] == '+' then ParseUnsigned(t[1..])
    else ParseUnsigned(t)
  }

  /** `parseFloat` reads back what `String(i)` writes, whatever follows it
      ("12abc" is 12), as long as the numeral is not followed by more digits or a point. */
  lemma ParseFloatNumeral(i: int, rest: string)
    requires rest == [] || (!IsDigit(rest[0]) && rest[0] != '.')
    ensures ParseFloat(IntToString(i) + rest) == Some(i as real)
  {
    if i < 0 {
      ParseNumeralNeg(i, rest);
    } else {
      ParseNumeralNonNeg(i, rest);
    }
  }

  lemma ParseNumeralNeg(i: int, rest: string)
    requires i < 0
    requires rest == [] || (!IsDigit(rest[0]) && rest[0] != '.')
    ensures ParseFloat(IntToString(i) + rest) == Some(i as real)
  {
    MinusNumeral(i, rest);
    ParseNegativeNumeral(i, rest);
  }

  lemma ParseNumeralNonNeg(i: int, rest: string)
    requires i >= 0
    requires rest == [] || (!IsDigit(rest[0]) && rest[0] != '.')
    ensures ParseFloat(IntToString(i) + rest) == Some(i as real)
  {
    assert IntToString(i) == NatToString(i);
    ParseNaturalNumeral(i, rest);
  }

  lemma ParseNegativeNumeral(i: int, rest: string)
    requires i < 0
    requires rest == [] || (!IsDigit(rest[0]) && rest[0] != '.')
    ensures ParseFloat("-" + (NatToString(-i) + rest)) == Some(i as real)
  {
    ParseUnsignedNumeral(-i, rest);
    ParseFloatMinus(NatToString(-i) + rest, (-i) as real);
    assert -((-i) as real) == i as real;
  }

  lemma MinusNumeral(i: int, rest: string)
    requires i < 0
    ensures IntToString(i) + rest == "-" + (NatToString(-i) + rest)
  {
  }

  /** A leading minus sign negates what follows. */
  lemma ParseFloatMinus(u: string, x: real)
    requires ParseUnsigned(u) == Some(x)
    ensures ParseFloat("-" + u) == Some(-x)
  {
    var t := "-" + u;
    assert t[0] == '-' && t[1..] == u;
    TrimStartNoSpace(t);
    assert ParseFloat(t) == Negated(ParseUnsigned(u));
  }

  lemma TrimStartNoSpace(t: string)
    requires t != [] && !IsSpace(t[0])
    ensures TrimStart(t) == t
  {
  }

  lemma ParseNaturalNumeral(n: nat, rest: string)
    requires rest == [] || (!IsDigit(rest[0]) && rest[0] != '.')
    ensures ParseFloat(NatToString(n) + rest) == Some(n as real)
  {
    var d := NatToString(n);
    var t := d + rest;
    assert t[0] == d[0] && IsDigit(d[0]);
    assert !IsSpace(t[0]) && t[0] != '-' && t[0] != '+';
    TrimStartNoSpace(t);
    ParseUnsignedNumeral(n, rest);
    assert ParseFloat(t) == ParseUnsigned(t);
  }

  lemma ParseUnsignedNumeral(n: nat, rest: string)
    requires rest == [] || (!IsDigit(rest[0]) && rest[0] != '.')
    ensures ParseUnsigned(NatToString(n) + rest) == Some(n as real)
  {
    var d := NatToString(n);
    LeadingDigitsOf(d, rest);
    assert (d + rest)[|d|..] == rest;
  }

  /** A string with no decimal digit parses to NaN. */
  lemma ParseFloatNoDigit(s: string)
    requires forall i :: 0 <= i < |s| ==> !IsDigit(s[i])
    ensures ParseFloat(s) == None
  {
    var t := TrimStart(s);
    NoDigitSuffix(s, |s| - |t|);
    if t != [] && (t[0] == '-' || t[0] == '+') {
      NoDigitSuffix(t, 1);
      NoDigitUnsigned(t[1..]);
    } else {
      NoDigitUnsigned(t);
    }
  }

  lemma NoDigitSuffix(s: string, k: nat)
    requires k <= |s|
    requires forall i :: 0 <= i < |s| ==> !IsDigit(s[i])
    ensures forall i :: 0 <= i < |s| - k ==> !IsDigit(s[k..][i])
  {
  }

  lemma NoDigitUnsigned(u: string)
    requires forall i :: 0 <= i < |u| ==> !IsDigit(u[i])
    ensures ParseUnsigned(u) == None
  {
    var ip := LeadingDigits(u);
    assert ip == [];
    if u != [] && u[0] == '.' {
      assert u[1..] == [] || !IsDigit(u[1..][0]);
    }
  }

  /** `Math.round(num / den)` for a positive divisor: the nearest integer,
      a tie (an exact half) rounded up towards +infinity. */
  function RoundDiv(num: int, den: int): (r: int)
    requires den > 0
    ensures 2 * den * r - den <= 2 * num < 2 * den * r + den
  {
    (2 * num + den) / (2 * den)
  }

  /** The bracket in `RoundDiv`'s contract pins the result down. */
  lemma RoundDivUnique(num: int, den: int, r: int)
    requires den > 0
    requires 2 * den * r - den <= 2 * num < 2 * den * r + den
    ensures r == RoundDiv(num, den)
  {
    var q := RoundDiv(num, den);
    if r > q {
      assert 2 * den * (r - q - 1) >= 0 by { MulNonNeg(2 * den, r - q - 1); }
    } else if r < q {
      assert 2 * den * (q - r - 1) >= 0 by { MulNonNeg(2 * den, q - r - 1); }
    }
  }

  lemma MulNonNeg(a: int, b: int)
    requires a >= 0 && b >= 0
    ensures a * b >= 0
  {
  }

  /** The fraction digits of `0 < f < 1`, at most `fuel + 1` of them, with no trailing zero. */
  function FractionDigits(f: real, fuel: nat): (s: string)
    requires 0.0 < f < 1.0
    ensures |s| >= 1 && AllDigits(s)
    decreases fuel
  {
    var d := (f * 10.0).Floor;
    var rest := f * 10.0 - d as real;
    [DigitChar(d)] + (if rest == 0.0 || fuel == 0 then "" else FractionDigits(rest, fuel - 1))
  }

  /** `x.toString()`: the integer numeral for a whole number; otherwise the
      integer part, a point and up to 21 fraction digits. */
  function NumberText(x: real): (s: string)
    ensures |s| >= 1
  {
    if x < 0.0 then "-" + UnsignedText(-x) else UnsignedText(x)
  }

  function UnsignedText(x: real): (s: string)
    requires x >= 0.0
    ensures |s| >= 1
  {
    var n := x.Floor;
    var f := x - n as real;
    if f == 0.0 then NatToString(n) else NatToString(n) + "." + FractionDigits(f, 20)
  }

  /** A whole amount is shown as its integer numeral. */
  lemma UnsignedTextNat(n: nat)
    ensures UnsignedText(n as real) == NatToString(n)
  {
    assert (n as real).Floor == n;
  }

  lemma UnsignedTextWhole(x: real, n: nat)
    requires x == n as real
    ensures UnsignedText(x) == NatToString(n)
  {
    UnsignedTextNat(n);
  }

  /** A whole amount is shown as its `String` numeral. */
  lemma NumberTextInt(i: int)
    ensures NumberText(i as real) == IntToString(i)
  {
    if i < 0 {
      NumberTextNegative(-i);
      assert -((-i) as real) == i as real;
    } else {
      UnsignedTextNat(i);
    }
  }

  lemma NumberTextNegative(n: nat)
    requires n > 0
    ensures NumberText(-(n as real)) == "-" + NatToString(n)
  {
    UnsignedTextNat(n);
  }

  /** A whole amount shown with `toString` parses back to itself. */
  lemma ParseNumberText(i: int)
    ensures NumberText(i as real) == IntToString(i)
    ensures ParseFloat(NumberText(i as real)) == Some(i as real)
  {
    NumberTextInt(i);
    ParseFloatNumeral(i, "");
    assert IntToString(i) + "" == IntToString(i);
  }
}
