/**
 * JavaScript numbers as the components use them: integers, plus `NaN` where `Number(...)`
 * or `parseInt(...)` cannot read the text. Conversions: `String(n)` / `n.toString()`,
 * `Number(text)` and `parseInt(text)`.
 */
module JsNumber {
  import JsText

  datatype Number = Int(value: int) | NaN

  predicate IsDigit(c: char)
  {
    '0' <= c <= '9'
  }

  predicate AllDigits(s: string)
  {
    forall i :: 0 <= i < |s| ==> IsDigit(s[i])
  }

  function DigitChar(d: nat): (c: char)
    requires d < 10
    ensures IsDigit(c)
  {
    ('0' as int + d) as char
  }

  /** The value of a run of decimal digits, read from the left. */
  function DigitsValue(s: string): nat
    requires AllDigits(s)
  {
    if s == [] then 0 else DigitsValue(s[..|s| - 1]) * 10 + (s[|s| - 1] as int - '0' as int)
  }

  /** The decimal digits of `n`, most significant first, with no leading zero. */
  function DecimalText(n: nat): (r: string)
    ensures |r| > 0 && AllDigits(r)
  {
    if n < 10 then [DigitChar(n)] else DecimalText(n / 10) + [DigitChar(n % 10)]
  }

  lemma {:induction false} DecimalTextRoundTrip(n: nat)
    ensures DigitsValue(DecimalText(n)) == n
  {
    if n >= 10 {
      DecimalTextRoundTrip(n / 10);
      var r := DecimalText(n);
      assert r[..|r| - 1] == DecimalText(n / 10);
    }
  }

  /** `String(x)`. */
  function ToText(x: Number): string
  {
    match x
    case NaN => "NaN"
    case Int(n) => if n < 0 then "-" + DecimalText(-n) else DecimalText(n)
  }

  /** Reads an optional sign followed by one or more digits; anything else is `NaN`. */
  function SignedInteger(t: string): Number
  {
    if |t| > 1 && t[0] == '-' && AllDigits(t[1..]) then Int(0 - DigitsValue(t[1..]))
    else if |t| > 1 && t[0] == '+' && AllDigits(t[1..]) then Int(DigitsValue(t[1..]))
    else if |t| > 0 && AllDigits(t) then Int(DigitsValue(t))
    else NaN
  }

  /**
   * `Number(text)`: surrounding whitespace is ignored and blank text is 0. Text that denotes a
   * non-integer (fractions, exponents, hexadecimal, `Infinity`) is not part of this model and reads as `NaN`.
   */
  function ToNumber(s: string): Number
  {
    var t := JsText.Trim(s);
    if t == "" then Int(0) else SignedInteger(t)
  }

  /** The longest prefix of `s` made of digits. */
  function LeadingDigits(s: string): (r: string)
    ensures AllDigits(r) && |r| <= |s| && r == s[..|r|]
    ensures |r| < |s| ==> !IsDigit(s[|r|])
  {
    if s != [] && IsDigit(s[0]) then [s[0]] + LeadingDigits(s[1..]) else []
  }

  /**
   * `parseInt(text)` read as radix 10: leading whitespace, an optional sign, then the longest run
   * of digits. Without a radix JavaScript reads a `0x`/`0X` prefix as hexadecimal; that case is
   * not modelled, since the texts parsed here come from a page-size select and a number input,
   * neither of which can hold such a prefix.
   */
  function ParseInt(s: string): Number
  {
    LeadingInteger(JsText.TrimStart(s))
  }

  /** An optional sign, then the longest run of digits; `NaN` when there is no digit. */
  function LeadingInteger(t: string): Number
  {
    if |t| > 0 && t[0] == '-' then Negate(LeadingUnsigned(t[1..]))
    else if |t| > 0 && t[0] == '+' then LeadingUnsigned(t[1..])
    else LeadingUnsigned(t)
  }

  /** The value of the longest run of leading digits; `NaN` when there is none. */
  function LeadingUnsigned(body: string): Number
  {
    var digits := LeadingDigits(body);
    if digits == [] then NaN else Int(DigitsValue(digits))
  }

  function Negate(x: Number): Number
  {
    match x
    case NaN => NaN
    case Int(n) => Int(0 - n)
  }

  /** Writing a number as text and reading it back with `Number(...)` gives the same number. */
  lemma ToNumberRoundTrip(x: Number)
    ensures ToNumber(ToText(x)) == x
  {
    var t := ToText(x);
    JsText.TrimNoop(t);
    if x.Int? {
      DecimalTextRoundTrip(if x.value < 0 then -x.value else x.value);
      if x.value < 0 {
        assert t[1..] == DecimalText(-x.value);
      }
    } else {
      assert !IsDigit(t[0]);
    }
  }

  lemma {:induction false} LeadingDigitsOfDigits(s: string)
    requires AllDigits(s)
    ensures LeadingDigits(s) == s
  {
    if s != [] {
      LeadingDigitsOfDigits(s[1..]);
    }
  }

  /** Writing a number as text and reading it back with `parseInt(...)` gives the same number. */
  lemma ParseIntRoundTrip(x: Number)
    ensures ParseInt(ToText(x)) == x
  {
    match x
    case NaN =>
      ParseIntOfNaNText();
    case Int(n) =>
      if n < 0 {
        assert ToText(x) == "-" + DecimalText(-n);
        ParseIntNegative(n);
      } else {
        assert ToText(x) == DecimalText(n);
        ParseIntNonNegative(n);
      }
  }

  /** The text `NaN` starts with no digit, so `parseInt` reads it as `NaN` again. */
  lemma ParseIntOfNaNText()
    ensures ParseInt("NaN") == NaN
  {
    assert JsText.TrimStart("NaN") == "NaN";
    assert !IsDigit("NaN"[0]);
  }

  lemma ParseIntNonNegative(n: nat)
    ensures ParseInt(DecimalText(n)) == Int(n)
  {
    DecimalTextRoundTrip(n);
    ParseIntOfDigits(DecimalText(n), n);
  }

  lemma ParseIntNegative(n: int)
    requires n < 0
    ensures ParseInt("-" + DecimalText(-n)) == Int(n)
  {
    DecimalTextRoundTrip(-n);
    ParseIntOfSignedDigits(DecimalText(-n), -n);
  }

  /** `parseInt` reads a run of digits as its decimal value. */
  lemma ParseIntOfDigits(t: string, v: int)
    requires |t| > 0 && AllDigits(t) && DigitsValue(t) == v
    ensures ParseInt(t) == Int(v)
  {
    LeadingUnsignedOfDigits(t);
    ParseIntOfUnsigned(t, v);
  }

  /** Text starting with a digit reads as its leading digits. */
  lemma ParseIntOfUnsigned(t: string, v: int)
    requires |t| > 0 && IsDigit(t[0]) && LeadingUnsigned(t) == Int(v)
    ensures ParseInt(t) == Int(v)
  {
    TrimStartOfDigits(t);
  }

  /** `parseInt` reads a minus sign followed by digits as the negated decimal value. */
  lemma ParseIntOfSignedDigits(d: string, v: int)
    requires |d| > 0 && AllDigits(d) && DigitsValue(d) == v
    ensures ParseInt("-" + d) == Int(-v)
  {
    LeadingUnsignedOfDigits(d);
    ParseIntOfMinus(d, v);
  }

  /** After a minus sign, `parseInt` negates what the rest reads as. */
  lemma ParseIntOfMinus(d: string, v: int)
    requires LeadingUnsigned(d) == Int(v)
    ensures ParseInt("-" + d) == Int(-v)
  {
    var t := "-" + d;
    TrimStartOfDigits(t);
    assert t[1..] == d;
  }

  /** Text starting with a digit or a sign has no leading whitespace to trim. */
  lemma TrimStartOfDigits(t: string)
    requires |t| > 0 && (IsDigit(t[0]) || t[0] == '-')
    ensures JsText.TrimStart(t) == t
  {
    assert !JsText.IsWhitespace(t[0]);
  }

  lemma LeadingUnsignedOfDigits(d: string)
    requires |d| > 0 && AllDigits(d)
    ensures LeadingUnsigned(d) == Int(DigitsValue(d))
  {
    LeadingDigitsOfDigits(d);
  }
}
