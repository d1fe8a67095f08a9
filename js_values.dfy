/**
 * The JavaScript values a scene flag can hold and the three coercions the
 * flag getters apply to them: Boolean(v), Number(v) and String(v).
 * Numbers are integers here.
 */
module JsValues {

  datatype JsValue = Undefined | Null | Bool(b: bool) | Num(n: int) | Str(s: string)

  /** What Number(v) yields: NaN or an integer. */
  datatype Numeric = NaN | Finite(value: int)

  /** The values `??` replaces by its right operand. */
  predicate IsNullish(v: JsValue) {
    v.Undefined? || v.Null?
  }

  /** `v ?? d` */
  function Coalesce(v: JsValue, d: JsValue): JsValue {
    if IsNullish(v) then d else v
  }

  /** Boolean(v): undefined, null, false, 0 and "" are falsy. */
  function Truthy(v: JsValue): bool {
    match v
    case Undefined => false
    case Null => false
    case Bool(b) => b
    case Num(n) => n != 0
    case Str(s) => s != ""
  }

  predicate IsDigit(c: char) {
    '0' <= c <= '9'
  }

  predicate AllDigits(s: string) {
    forall i :: 0 <= i < |s| ==> IsDigit(s[i])
  }

  function DigitValue(c: char): nat
    requires IsDigit(c)
  {
    (c as int) - ('0' as int)
  }

  function DigitChar(d: nat): char
    requires d < 10
  {
    ('0' as int + d) as char
  }

  /** The value of a run of decimal digits, most significant first. */
  function DigitsValue(s: string): nat
    requires AllDigits(s)
  {
    if s == [] then 0 else 10 * DigitsValue(s[..|s| - 1]) + DigitValue(s[|s| - 1])
  }

  /**
   * Number(s) for a string: the empty string is 0, an optionally signed run of
   * decimal digits is its value, and everything else is NaN.
   */
  function ParseNumber(s: string): Numeric {
    if s == "" then Finite(0)
    else if (s[0] == '-' || s[0] == '+') && |s| > 1 && AllDigits(s[1..]) then
      var magnitude: int := DigitsValue(s[1..]);
      Finite(if s[0] == '-' then -magnitude else magnitude)
    else if AllDigits(s) then Finite(DigitsValue(s))
    else NaN
  }

  /** Number(v) */
  function ToNumber(v: JsValue): Numeric {
    match v
    case Undefined => NaN
    case Null => Finite(0)
    case Bool(b) => Finite(if b then 1 else 0)
    case Num(n) => Finite(n)
    case Str(s) => ParseNumber(s)
  }

  /** The decimal digits of a natural number, without leading zeros. */
  function NatToDecimal(n: nat): (s: string)
    ensures |s| > 0 && AllDigits(s)
    decreases n
  {
    if n < 10 then [DigitChar(n)] else NatToDecimal(n / 10) + [DigitChar(n % 10)]
  }

  function IntToDecimal(n: int): string {
    if n < 0 then "-" + NatToDecimal(-n) else NatToDecimal(n)
  }

  /** String(v) */
  function ToJsString(v: JsValue): string {
    match v
    case Undefined => "undefined"
    case Null => "null"
    case Bool(b) => if b then "true" else "false"
    case Num(n) => IntToDecimal(n)
    case Str(s) => s
  }

  /** Reading back the digits String(n) writes for a natural number gives n. */
  lemma {:induction false} DecimalRoundTrip(n: nat)
    ensures DigitsValue(NatToDecimal(n)) == n
  {
    var s := NatToDecimal(n);
    if n >= 10 {
      DecimalRoundTrip(n / 10);
      assert s[..|s| - 1] == NatToDecimal(n / 10);
      assert s[|s| - 1] == DigitChar(n % 10);
    }
  }

  /** Number(String(n)) == n: the string a number flag is turned into reads back as that number. */
  lemma NumberOfStringRoundTrip(n: int)
    ensures ToNumber(Str(ToJsString(Num(n)))) == Finite(n)
  {
    var s := ToJsString(Num(n));
    if n < 0 {
      DecimalRoundTrip(-n);
      assert s[1..] == NatToDecimal(-n);
    } else {
      DecimalRoundTrip(n);
      assert IsDigit(s[0]);
    }
  }
}
