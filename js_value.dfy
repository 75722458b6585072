/**
 The JavaScript values that reach the boolean schema's transform and tests,
 and the `String(value)` conversion the transform applies to them.

 Numbers are modelled as integers and printed in decimal; any other object
 (an array, a plain object, a Date, ...) is represented only by the string
 its conversion yields.
 */
module JsValue {

  datatype Value =
    | Undefined
    | Null
    | Bool(value: bool)          // a primitive `true` / `false`
    | BoxedBool(primitive: bool) // a `new Boolean(b)` wrapper object
    | Str(s: string)
    | Int(n: int)
    | Other(rendering: string)   // any other object, by what `String(o)` returns

  /** `value == null` in JavaScript: the value is `undefined` or `null`. */
  predicate IsAbsent(v: Value) {
    v.Undefined? || v.Null?
  }

  predicate IsDigit(c: char) {
    '0' <= c <= '9'
  }

  predicate AllDigits(s: string) {
    forall i :: 0 <= i < |s| ==> IsDigit(s[i])
  }

  function DigitChar(d: nat): (c: char)
    requires d < 10
    ensures IsDigit(c)
  {
    ('0' as int + d) as char
  }

  function DigitValue(c: char): (d: nat)
    requires IsDigit(c)
    ensures d < 10 && DigitChar(d) == c
  {
    c as int - '0' as int
  }

  /** Decimal digits of a natural number, most significant first, no leading zeros. */
  function NatDigits(n: nat): (r: string)
    ensures |r| >= 1 && AllDigits(r)
    ensures |r| == 1 <==> n < 10
    ensures r[0] == '0' ==> n == 0
    decreases n
  {
    if n < 10 then [DigitChar(n)] else NatDigits(n / 10) + [DigitChar(n % 10)]
  }

  /** How `String(n)` prints an integral number: an optional minus sign, then its digits. */
  function Decimal(n: int): string {
    if n < 0 then "-" + NatDigits(-n) else NatDigits(n)
  }

  /** Reads a digit string back as a number: the inverse of NatDigits. */
  function ParseDigits(s: string): nat
    requires AllDigits(s)
  {
    if s == [] then 0 else ParseDigits(s[..|s| - 1]) * 10 + DigitValue(s[|s| - 1])
  }

  /** `String(value)`. */
  function ToJsString(v: Value): string {
    match v
    case Undefined => "undefined"
    case Null => "null"
    case Bool(b) => if b then "true" else "false"
    case BoxedBool(b) => if b then "true" else "false"
    case Str(s) => s
    case Int(n) => Decimal(n)
    case Other(r) => r
  }

  lemma {:induction false} NatDigitsRoundTrip(n: nat)
    ensures ParseDigits(NatDigits(n)) == n
    decreases n
  {
    if n >= 10 {
      var s := NatDigits(n);
      assert s[..|s| - 1] == NatDigits(n / 10);
      NatDigitsRoundTrip(n / 10);
    }
  }

  /** Decimal renders every integer distinctly: a minus sign exactly for negatives, then the magnitude's digits. */
  lemma {:induction false} DecimalRoundTrip(n: int)
    ensures n < 0 ==> Decimal(n)[0] == '-' && ParseDigits(Decimal(n)[1..]) == -n
    ensures n >= 0 ==> AllDigits(Decimal(n)) && ParseDigits(Decimal(n)) == n
  {
    var digits := NatDigits(if n < 0 then -n else n);
    NatDigitsRoundTrip(if n < 0 then -n else n);
    if n < 0 {
      assert Decimal(n) == "-" + digits;
      assert Decimal(n)[1..] == digits;
    }
  }

  /** The characters of a decimal rendering are digits and possibly a leading minus sign;
      it has one character exactly for the numbers 0 to 9, and then it is that digit. */
  lemma {:induction false} DecimalShape(n: int)
    ensures |Decimal(n)| >= 1
    ensures forall i :: 0 <= i < |Decimal(n)| ==> IsDigit(Decimal(n)[i]) || Decimal(n)[i] == '-'
    ensures |Decimal(n)| == 1 <==> 0 <= n < 10
    ensures 0 <= n < 10 ==> Decimal(n) == [DigitChar(n)]
  {
  }
}
