/**
 * The JavaScript values a handler reads out of a JSON request body, and the
 * three JavaScript operations the handlers apply to them: the falsy test `!v`,
 * the loose comparison `v == true`, and the conversion `String(v)`.
 */
module JsValue {
  import opened Wrappers

  /** A field of a parsed request body; `Undefined` is a field the body does not carry. */
  datatype Json = Undefined | Null | Bool(b: bool) | Num(n: int) | Str(s: string)

  /** JavaScript's `!v`: true exactly for undefined, null, false, 0 and the empty string. */
  predicate Falsy(v: Json) {
    match v
    case Undefined => true
    case Null => true
    case Bool(b) => !b
    case Num(n) => n == 0
    case Str(s) => s == ""
  }

  predicate IsDigit(c: char) {
    '0' <= c <= '9'
  }

  predicate AllDigits(s: string) {
    forall i :: 0 <= i < |s| ==> IsDigit(s[i])
  }

  function DigitValue(c: char): (d: nat)
    requires IsDigit(c)
    ensures d < 10
  {
    c as int - '0' as int
  }

  function DigitChar(d: nat): (c: char)
    requires d < 10
    ensures IsDigit(c) && DigitValue(c) == d
  {
    ('0' as int + d) as char
  }

  /** Decimal spelling of a natural number: digits only, most significant first, no leading zero. */
  function NatToDecimal(n: nat): (s: string)
    ensures |s| >= 1 && AllDigits(s)
    ensures n == 0 ==> s == "0"
    ensures n > 0 ==> s[0] != '0'
    decreases n
  {
    if n < 10 then [DigitChar(n)] else NatToDecimal(n / 10) + [DigitChar(n % 10)]
  }

  /** The number a run of decimal digits denotes (leading zeros allowed). */
  function DigitsValue(s: string): nat
    requires AllDigits(s)
  {
    if s == [] then 0 else DigitsValue(s[..|s| - 1]) * 10 + DigitValue(s[|s| - 1])
  }

  lemma {:induction false} DigitsValueOfDecimal(n: nat)
    ensures DigitsValue(NatToDecimal(n)) == n
  {
    if n >= 10 {
      var s := NatToDecimal(n);
      assert s[..|s| - 1] == NatToDecimal(n / 10);
      DigitsValueOfDecimal(n / 10);
    }
  }

  /**
   * JavaScript's `String(n)` for an integer of magnitude at most 2^53: every
   * such integer is an exact double, and JavaScript prints it in full.
   */
  function IntToDecimal(n: int): string {
    if n < 0 then "-" + NatToDecimal(-n) else NatToDecimal(n)
  }

  /**
   * The integer a string spells: an optional sign, then one or more decimal
   * digits. It is the inverse of IntToDecimal and the string case of `== true`.
   */
  function ParseInteger(s: string): Option<int> {
    if |s| > 0 && (s[0] == '-' || s[0] == '+') then
      var digits := s[1..];
      if |digits| > 0 && AllDigits(digits) then
        var magnitude: int := DigitsValue(digits);
        Some(if s[0] == '-' then -magnitude else magnitude)
      else None
    else if |s| > 0 && AllDigits(s) then Some(DigitsValue(s))
    else None
  }

  lemma IntToDecimalRoundTrip(n: int)
    ensures ParseInteger(IntToDecimal(n)) == Some(n)
  {
    var s := IntToDecimal(n);
    if n < 0 {
      DigitsValueOfDecimal(-n);
      assert s[1..] == NatToDecimal(-n);
    } else {
      DigitsValueOfDecimal(n);
    }
  }

  /**
   * JavaScript's `String(v)`. The handlers use it where they stringify a
   * field for a payload, and implicitly where a field becomes part of a Redis
   * key (`'server_token:' + server_id`) or a hash field name.
   */
  function ToJsString(v: Json): (s: string)
    ensures v.Str? ==> s == v.s
    ensures v.Num? ==> ParseInteger(s) == Some(v.n)
    ensures v.Undefined? ==> s == "undefined"
  {
    match v
    case Undefined => "undefined"
    case Null => "null"
    case Bool(b) => if b then "true" else "false"
    case Num(n) => IntToDecimalRoundTrip(n); IntToDecimal(n)
    case Str(s) => s
  }

  /**
   * JavaScript's loose comparison `v == true`: `true` converts to the number 1,
   * so a boolean must be true, a number must be 1, a string must spell 1, and
   * undefined and null are never equal to it.
   */
  predicate EqualsTrue(v: Json) {
    match v
    case Bool(b) => b
    case Num(n) => n == 1
    case Str(s) => ParseInteger(s) == Some(1)
    case _ => false
  }

  /** Every value that passes `== true` also passes the truthiness test. */
  lemma EqualsTrueIsTruthy(v: Json)
    ensures EqualsTrue(v) ==> !Falsy(v)
  {
  }
}
