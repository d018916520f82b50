/**
 * The numeric helpers of utilities/math.ts: `parseIntOrZero`, which reads a
 * value as a base-10 integer the way JavaScript's `parseInt(String(value), 10)`
 * does and turns a failed parse into 0, and `clamp`.
 *
 * JavaScript numbers are modelled as mathematical integers (see README for
 * what that leaves out); `clamp` works on reals.
 */
module MathUtil {
  import opened Wrappers

  /** The values `parseIntOrZero` is called with: `string | number | undefined`, and `null` at run time. */
  datatype JsValue = Undefined | Null | Number(n: int) | Str(s: string)

  // Characters

  /**
   * The characters `parseInt` skips before the number: white space and line
   * terminators (StrWhiteSpaceChar, section 7.2 and 7.3 of ECMA-262).
   */
  predicate IsWhiteSpace(c: char) {
    || c == '\t' || c == '\n' || c == '\U{000B}' || c == '\U{000C}' || c == '\r' || c == ' '
    || c == '\U{00A0}' || c == '\U{1680}' || ('\U{2000}' <= c <= '\U{200A}')
    || c == '\U{2028}' || c == '\U{2029}' || c == '\U{202F}' || c == '\U{205F}'
    || c == '\U{3000}' || c == '\U{FEFF}'
  }

  predicate IsDigit(c: char) {
    '0' <= c <= '9'
  }

  predicate AllWhiteSpace(s: string) {
    forall i :: 0 <= i < |s| ==> IsWhiteSpace(s[i])
  }

  predicate AllDigits(s: string) {
    forall i :: 0 <= i < |s| ==> IsDigit(s[i])
  }

  function DigitValue(c: char): (d: nat)
    requires IsDigit(c)
    ensures d < 10
  {
    c as int - '0' as int
  }

  function DigitChar(d: nat): (c: char)
    requires d < 10
    ensures IsDigit(c) && DigitValue(c) == d
  {
    ('0' as int + d) as char
  }

  // Scanning

  /** The string with its leading white space removed. */
  function TrimStart(s: string): (r: string)
    ensures |r| <= |s| && r == s[|s| - |r|..]
    ensures AllWhiteSpace(s[..|s| - |r|])
    ensures r == [] || !IsWhiteSpace(r[0])
  {
    if s != [] && IsWhiteSpace(s[0]) then TrimStart(s[1..]) else s
  }

  /** The longest prefix of `s` made of decimal digits. */
  function DigitPrefix(s: string): (r: string)
    ensures |r| <= |s| && r == s[..|r|]
    ensures AllDigits(r)
    ensures |r| == |s| || !IsDigit(s[|r|])
  {
    if s != [] && IsDigit(s[0]) then [s[0]] + DigitPrefix(s[1..]) else []
  }

  /** The value of a string of decimal digits, most significant first. */
  function DigitsValue(ds: string): nat
    requires AllDigits(ds)
  {
    if ds == [] then 0 else DigitsValue(ds[..|ds| - 1]) * 10 + DigitValue(ds[|ds| - 1])
  }

  /** The rest of `t` after one leading sign, if there is one. */
  function Unsigned(t: string): (r: string)
    ensures |r| <= |t|
  {
    if t != [] && (t[0] == '+' || t[0] == '-') then t[1..] else t
  }

  function Signed(negative: bool, m: nat): int {
    if negative then -(m as int) else m
  }

  /** `parseInt(s, 10)`; None stands for NaN. */
  function ParseInt(s: string): Option<int> {
    var t := TrimStart(s);
    var ds := DigitPrefix(Unsigned(t));
    if ds == [] then None else Some(Signed(t[0] == '-', DigitsValue(ds)))
  }

  // Number to string

  /** Magnitudes from 10^21 up are written by `String` in exponential notation. */
  const ExponentialFrom: int := 1_000_000_000_000_000_000_000

  /** The decimal digits of `n`, with no leading zero. */
  function DecimalDigits(n: nat): (r: string)
    ensures |r| >= 1 && AllDigits(r)
    ensures r[0] != '0' || n == 0
  {
    if n < 10 then [DigitChar(n)] else DecimalDigits(n / 10) + [DigitChar(n % 10)]
  }

  /** The digits without their trailing zeros; a leading digit always stays. */
  function StripTrailingZeros(ds: string): (r: string)
    requires |ds| >= 1
    ensures 1 <= |r| <= |ds| && r == ds[..|r|]
  {
    if |ds| > 1 && ds[|ds| - 1] == '0' then StripTrailingZeros(ds[..|ds| - 1]) else ds
  }

  /** `String(m)` for a magnitude: plain digits below 10^21, else `d.ddde+x`. */
  function MagnitudeString(m: nat): string {
    var ds := DecimalDigits(m);
    if m < ExponentialFrom then ds
    else
      var mantissa := StripTrailingZeros(ds);
      [mantissa[0]] + (if |mantissa| > 1 then "." + mantissa[1..] else "")
      + "e+" + DecimalDigits(|ds| - 1)
  }

  function NumberString(n: int): string {
    if n < 0 then "-" + MagnitudeString(-n) else MagnitudeString(n)
  }

  /** `String(value)` for the values `parseIntOrZero` reaches it with. */
  function ToString(v: JsValue): string
    requires v.Number? || v.Str?
  {
    match v
    case Number(n) => NumberString(n)
    case Str(s) => s
  }

  /** `parseIntOrZero`: 0 for undefined and null, and 0 where `parseInt` gives NaN. */
  function ParseIntOrZero(v: JsValue): int {
    if v.Undefined? || v.Null? then 0
    else ParseInt(ToString(v)).GetOr(0)
  }

  // Properties of the parser

  lemma {:induction false} TrimStartSkips(ws: string, s: string)
    requires AllWhiteSpace(ws)
    requires s == [] || !IsWhiteSpace(s[0])
    ensures TrimStart(ws + s) == s
    decreases |ws|
  {
    if ws == [] {
      assert ws + s == s;
    } else {
      assert (ws + s)[1..] == ws[1..] + s;
      TrimStartSkips(ws[1..], s);
    }
  }

  lemma {:induction false} DigitPrefixStops(ds: string, rest: string)
    requires AllDigits(ds)
    requires rest == [] || !IsDigit(rest[0])
    ensures DigitPrefix(ds + rest) == ds
    decreases |ds|
  {
    if ds == [] {
      assert ds + rest == rest;
    } else {
      assert (ds + rest)[1..] == ds[1..] + rest;
      DigitPrefixStops(ds[1..], rest);
      assert ds == [ds[0]] + ds[1..];
    }
  }

  lemma SignSkipped(sign: string, body: string)
    requires sign == "" || sign == "+" || sign == "-"
    requires sign == "" && body != [] ==> body[0] != '+' && body[0] != '-'
    ensures Unsigned(sign + body) == body
  {
    if sign == "" {
      assert sign + body == body;
    } else {
      assert (sign + body)[1..] == body;
    }
  }

  /** The white space before a sign, a digit or any other character is trimmed off. */
  lemma TrimsToSign(ws: string, sign: string, digits: string, rest: string)
    requires AllWhiteSpace(ws)
    requires sign == "" || sign == "+" || sign == "-"
    requires AllDigits(digits)
    requires sign == "" && digits == [] && rest != [] ==> !IsWhiteSpace(rest[0])
    ensures TrimStart(ws + (sign + (digits + rest))) == sign + (digits + rest)
  {
    var t := sign + (digits + rest);
    if sign != "" {
      assert t[0] == sign[0];
    } else if digits != [] {
      assert t[0] == digits[0];
    } else {
      assert t == rest;
    }
    TrimStartSkips(ws, t);
  }

  /** After the sign, the digit run is exactly `digits`. */
  lemma ReadsDigits(sign: string, digits: string, rest: string)
    requires sign == "" || sign == "+" || sign == "-"
    requires AllDigits(digits)
    requires rest == [] || !IsDigit(rest[0])
    requires sign == "" && digits == [] && rest != [] ==> rest[0] != '+' && rest[0] != '-'
    ensures DigitPrefix(Unsigned(sign + (digits + rest))) == digits
  {
    var body := digits + rest;
    if digits != [] {
      assert body[0] == digits[0];
    } else {
      assert body == rest;
    }
    SignSkipped(sign, body);
    DigitPrefixStops(digits, rest);
  }

  /**
   * Every input read as white space, an optional sign, the longest run of
   * digits and the rest: with no digits the result is 0 (parseInt's NaN
   * turned into 0); otherwise the value of the digits, negated after a minus
   * sign, whatever follows them.
   */
  lemma ParseIntOrZeroReads(ws: string, sign: string, digits: string, rest: string)
    requires AllWhiteSpace(ws)
    requires sign == "" || sign == "+" || sign == "-"
    requires AllDigits(digits)
    requires rest == [] || !IsDigit(rest[0])
    requires sign == "" && digits == [] && rest != [] ==>
      !IsWhiteSpace(rest[0]) && rest[0] != '+' && rest[0] != '-'
    ensures ParseIntOrZero(Str(ws + (sign + (digits + rest)))) ==
      if digits == [] then 0 else Signed(sign == "-", DigitsValue(digits))
  {
    var t := sign + (digits + rest);
    TrimsToSign(ws, sign, digits, rest);
    ReadsDigits(sign, digits, rest);
    if digits != [] {
      assert t[0] == '-' <==> sign == "-";
    }
    ParseIntOf(ws + t, t, digits);
  }

  lemma ParseIntOf(s: string, t: string, ds: string)
    requires TrimStart(s) == t && DigitPrefix(Unsigned(t)) == ds
    ensures ParseIntOrZero(Str(s)) == if ds == [] then 0 else Signed(t[0] == '-', DigitsValue(ds))
  {
  }

  /** No digit after the white space and the sign: the result is 0, not NaN. */
  lemma ParseIntOrZeroNoDigits(ws: string, sign: string, rest: string)
    requires AllWhiteSpace(ws)
    requires sign == "" || sign == "+" || sign == "-"
    requires rest == [] || !IsDigit(rest[0])
    requires sign == "" && rest != [] ==> !IsWhiteSpace(rest[0]) && rest[0] != '+' && rest[0] != '-'
    ensures ParseIntOrZero(Str(ws + (sign + rest))) == 0
  {
    ParseIntOrZeroReads(ws, sign, "", rest);
    assert "" + rest == rest;
  }

  /** A string starting with digits parses as their value; what follows them is ignored. */
  lemma ParseIntOrZeroDigitPrefix(digits: string, rest: string)
    requires digits != [] && AllDigits(digits)
    requires rest == [] || !IsDigit(rest[0])
    ensures ParseIntOrZero(Str(digits + rest)) == DigitsValue(digits)
  {
    ParseIntOrZeroReads("", "", digits, rest);
    assert "" + ("" + (digits + rest)) == digits + rest;
  }

  /** Undefined and null give 0. */
  lemma ParseIntOrZeroAbsent()
    ensures ParseIntOrZero(Undefined) == 0 && ParseIntOrZero(Null) == 0
  {
  }

  // Numbers: String then parseInt

  /** Decimal digits read back as the number they were written from. */
  lemma {:induction false} DecimalDigitsValue(n: nat)
    ensures DigitsValue(DecimalDigits(n)) == n
  {
    var ds := DecimalDigits(n);
    if n >= 10 {
      DecimalDigitsValue(n / 10);
      assert ds[..|ds| - 1] == DecimalDigits(n / 10);
    }
  }

  function Magnitude(n: int): nat {
    if n < 0 then -n else n
  }

  function SignString(n: int): string {
    if n < 0 then "-" else ""
  }

  lemma SmallNumberString(n: int)
    requires -ExponentialFrom < n < ExponentialFrom
    ensures ToString(Number(n)) == "" + (SignString(n) + (DecimalDigits(Magnitude(n)) + ""))
  {
  }

  /** Below 10^21 in magnitude, an integer passes through `String` and `parseInt` unchanged. */
  lemma ParseIntOrZeroInteger(n: int)
    requires -ExponentialFrom < n < ExponentialFrom
    ensures ParseIntOrZero(Number(n)) == n
  {
    var m := Magnitude(n);
    SmallNumberString(n);
    ParseIntOrZeroReads("", SignString(n), DecimalDigits(m), "");
    DecimalDigitsValue(m);
  }

  /** The first decimal digit of a magnitude. */
  function LeadingDigit(m: nat): (d: nat)
    ensures d < 10
  {
    DigitValue(DecimalDigits(m)[0])
  }

  /** What `String` writes after the first digit of a magnitude from 10^21 up. */
  function ExponentTail(m: nat): string {
    var ds := DecimalDigits(m);
    var mantissa := StripTrailingZeros(ds);
    (if |mantissa| > 1 then "." + mantissa[1..] else "") + "e+" + DecimalDigits(|ds| - 1)
  }

  lemma LargeMagnitudeString(m: nat)
    requires ExponentialFrom <= m
    ensures MagnitudeString(m) == [DecimalDigits(m)[0]] + ExponentTail(m)
    ensures ExponentTail(m)[0] == '.' || ExponentTail(m)[0] == 'e'
  {
    var ds := DecimalDigits(m);
    var mantissa := StripTrailingZeros(ds);
    assert mantissa[0] == ds[0];
    var frac := if |mantissa| > 1 then "." + mantissa[1..] else "";
    assert [mantissa[0]] + frac + "e+" + DecimalDigits(|ds| - 1) == [ds[0]] + (frac + "e+" + DecimalDigits(|ds| - 1));
  }

  lemma LargeNumberString(n: int)
    requires n <= -ExponentialFrom || ExponentialFrom <= n
    ensures ToString(Number(n)) == "" + (SignString(n) + ([DecimalDigits(Magnitude(n))[0]] + ExponentTail(Magnitude(n))))
    ensures ExponentTail(Magnitude(n))[0] == '.' || ExponentTail(Magnitude(n))[0] == 'e'
  {
    LargeMagnitudeString(Magnitude(n));
    assert "" + (SignString(n) + MagnitudeString(Magnitude(n))) == SignString(n) + MagnitudeString(Magnitude(n));
  }

  /** A number is parsed from the string `String` writes for it. */
  lemma NumberParsedAsString(n: int)
    ensures ParseIntOrZero(Number(n)) == ParseIntOrZero(Str(ToString(Number(n))))
  {
  }

  lemma SingleDigitValue(d: char)
    requires IsDigit(d)
    ensures AllDigits([d]) && DigitsValue([d]) == DigitValue(d)
  {
    assert [d][..0] == [];
  }

  /**
   * From 10^21 up in magnitude, `String` writes an exponent, so `parseInt`
   * keeps only the first digit (and the sign).
   */
  lemma ParseIntOrZeroLargeInteger(n: int)
    requires n <= -ExponentialFrom || ExponentialFrom <= n
    ensures ParseIntOrZero(Number(n)) == Signed(n < 0, LeadingDigit(Magnitude(n)))
  {
    var m := Magnitude(n);
    var d := DecimalDigits(m)[0];
    var sign, tail := SignString(n), ExponentTail(m);
    LargeNumberString(n);
    NumberParsedAsString(n);
    SingleDigitValue(d);
    ParseIntOrZeroReads("", sign, [d], tail);
  }

  // clamp

  /** `Math.min(Math.max(value, min), max)`. */
  function Clamp(value: real, min: real, max: real): (r: real)
    ensures r <= max
    ensures min <= max ==> min <= r
    ensures min <= value <= max ==> r == value
    ensures min <= max && value < min ==> r == min
    ensures max < value ==> r == max
    ensures min > max ==> r == max
  {
    var low := if value >= min then value else min;
    if low <= max then low else max
  }

  /** Clamping twice is clamping once, for any bounds. */
  lemma ClampIdempotent(value: real, min: real, max: real)
    ensures Clamp(Clamp(value, min, max), min, max) == Clamp(value, min, max)
  {
  }
}
