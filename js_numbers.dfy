/** Integers as JavaScript writes and reads them in decimal: `String(n)`
    and `Number(s)`. */
module JsNumbers {

  import opened Wrappers
  import JsValues

  predicate IsDigit(c: char) {
    '0' <= c <= '9'
  }

  predicate AllDigits(s: string) {
    forall k :: 0 <= k < |s| ==> IsDigit(s[k])
  }

  function DigitChar(d: nat): (c: char)
    requires d < 10
    ensures IsDigit(c) && c as int - '0' as int == d
  {
    ('0' as int + d) as char
  }

  /** The value of a string of decimal digits, most significant first. */
  function DecimalValue(p: string): nat
    requires AllDigits(p)
  {
    if p == [] then 0
    else DecimalValue(p[..|p| - 1]) * 10 + (p[|p| - 1] as int - '0' as int)
  }

  /** The shortest decimal spelling of a natural number. */
  function NatToDecimal(n: nat): (s: string)
    ensures s != [] && AllDigits(s)
  {
    if n < 10 then [DigitChar(n)]
    else NatToDecimal(n / 10) + [DigitChar(n % 10)]
  }

  /** `String(n)` for an integer: a minus sign, then the decimal digits. */
  function IntToText(n: int): (s: string)
    ensures s != [] && (s[0] == '-' || IsDigit(s[0])) && IsDigit(s[|s| - 1])
    ensures s[0] == '-' <==> n < 0
    ensures n < 0 ==> s[1..] == NatToDecimal(-n)
    ensures n >= 0 ==> s == NatToDecimal(n)
    ensures ',' !in s
  {
    var s := if n < 0 then "-" + NatToDecimal(-n) else NatToDecimal(n);
    assert forall k :: 0 < k < |s| ==> IsDigit(s[k]);
    s
  }

  lemma ZeroText()
    ensures IntToText(0) == "0"
  {
    assert NatToDecimal(0) == [DigitChar(0)];
  }

  /** The longest prefix of `s` made of decimal digits. */
  function DigitPrefix(s: string): (p: string)
    ensures |p| <= |s| && p == s[..|p|] && AllDigits(p)
    ensures |p| < |s| ==> !IsDigit(s[|p|])
  {
    if s != [] && IsDigit(s[0]) then [s[0]] + DigitPrefix(s[1..]) else []
  }

  lemma {:induction false} DecimalValueOfDecimal(n: nat)
    ensures DecimalValue(NatToDecimal(n)) == n
  {
    if n >= 10 {
      var s := NatToDecimal(n);
      assert s[..|s| - 1] == NatToDecimal(n / 10);
      DecimalValueOfDecimal(n / 10);
    }
  }

  lemma {:induction false} DigitPrefixOfDigits(s: string)
    requires AllDigits(s)
    ensures DigitPrefix(s) == s
  {
    if s != [] {
      DigitPrefixOfDigits(s[1..]);
    }
  }

  /** `Number(s)` for a string (a missing value is `null`, which converts
      to 0): surrounding whitespace is ignored, the empty string is 0, and
      an optional sign followed by decimal digits is that integer. `None`
      is `NaN`. */
  function NumberOf(v: Option<string>): (r: Option<int>)
    ensures v.None? ==> r == Some(0)
    ensures v.Some? && JsValues.Trim(v.value) == "" ==> r == Some(0)
  {
    if v.None? then Some(0) else SignedDecimal(JsValues.Trim(v.value))
  }

  /** The value of an already trimmed numeric string. */
  function SignedDecimal(t: string): (r: Option<int>)
    ensures t == "" ==> r == Some(0)
  {
    if t == "" then Some(0)
    else
      var digits := if t[0] == '-' || t[0] == '+' then t[1..] else t;
      if digits == [] || !AllDigits(digits) then None
      else if t[0] == '-' then Some(-(DecimalValue(digits) as int))
      else Some(DecimalValue(digits))
  }

  lemma {:induction false} SignedDecimalOfText(n: int)
    ensures SignedDecimal(IntToText(n)) == Some(n)
  {
    var t := IntToText(n);
    if n < 0 {
      var digits := NatToDecimal(-n);
      assert t[0] == '-' && t[1..] == digits;
      DecimalValueOfDecimal(-n);
      assert SignedDecimal(t) == Some(-(DecimalValue(digits) as int));
    } else {
      var digits := NatToDecimal(n);
      assert t == digits && t[0] != '-' && t[0] != '+';
      DecimalValueOfDecimal(n);
      assert SignedDecimal(t) == Some(DecimalValue(digits));
    }
  }

  /** `Number(String(n)) === n` for every integer. */
  lemma {:induction false} NumberOfText(n: int)
    ensures NumberOf(Some(IntToText(n))) == Some(n)
  {
    var s := IntToText(n);
    assert !JsValues.IsJsWhitespace(s[0]) && !JsValues.IsJsWhitespace(s[|s| - 1]);
    JsValues.TrimOfNonBlank(s);
    SignedDecimalOfText(n);
  }
}
