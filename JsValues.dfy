/**
 * JSON values as they reach the server (tool arguments, parsed response bodies),
 * together with the two JavaScript coercions the server relies on:
 * truthiness (`if (x)`, `a || b`) and string conversion in template literals (`${x}`).
 */
module JsValues {
  import opened Wrappers

  /** A JSON value. Numbers are restricted to integers. */
  datatype Json =
    | JNull
    | JBool(b: bool)
    | JNum(n: int)
    | JStr(s: string)
    | JArr(items: seq<Json>)
    | JObj(fields: map<string, Json>)

  /** JavaScript truthiness of a JSON value: null, false, 0 and "" are falsy. */
  function Truthy(j: Json): (t: bool)
    ensures !t <==> j == JNull || j == JBool(false) || j == JNum(0) || j == JStr("")
    ensures j.JArr? || j.JObj? ==> t
  {
    match j
    case JNull => false
    case JBool(b) => b
    case JNum(n) => n != 0
    case JStr(s) => s != ""
    case JArr(_) => true
    case JObj(_) => true
  }

  predicate IsDigit(c: char) { '0' <= c <= '9' }

  function DigitValue(c: char): nat
    requires IsDigit(c)
  {
    c as nat - '0' as nat
  }

  /** Exact decimal rendering of a natural number; `String(n)` agrees with it for n < 2^53. */
  function NatToDecimal(n: nat): (s: string)
    ensures |s| >= 1
    ensures forall i :: 0 <= i < |s| ==> IsDigit(s[i])
    ensures n >= 10 ==> s[0] != '0'
  {
    if n < 10 then ["0123456789"[n]]
    else NatToDecimal(n / 10) + ["0123456789"[n % 10]]
  }

  /** The number a string of decimal digits denotes (the inverse of NatToDecimal). */
  function DecimalValue(s: string): nat
    requires forall i :: 0 <= i < |s| ==> IsDigit(s[i])
  {
    if s == [] then 0 else 10 * DecimalValue(s[..|s| - 1]) + DigitValue(s[|s| - 1])
  }

  /** Rendering a number in decimal loses nothing: reading the digits back gives the number. */
  lemma {:induction false} DecimalRoundTrip(n: nat)
    ensures DecimalValue(NatToDecimal(n)) == n
  {
    var s := NatToDecimal(n);
    if n >= 10 {
      DecimalRoundTrip(n / 10);
      assert s[..|s| - 1] == NatToDecimal(n / 10);
    }
  }

  /** `String(j)`: the text a template literal inserts for a JSON value. */
  function ToJsString(j: Json): (s: string)
    ensures j.JStr? ==> s == j.s
    ensures j.JObj? ==> s == "[object Object]"
    ensures j.JNum? ==> s == IntToDecimal(j.n)
  {
    match j
    case JNull => "null"
    case JBool(b) => if b then "true" else "false"
    case JNum(n) => IntToDecimal(n)
    case JStr(s) => s
    case JArr(items) =>
      // Array.prototype.join(","): null elements become the empty string
      JoinWithComma(seq(|items|, i requires 0 <= i < |items| =>
        if items[i].JNull? then "" else ToJsString(items[i])))
    case JObj(_) => "[object Object]"
  }

  /** `Array.prototype.join(",")` over the already converted elements; a helper of ToJsString. */
  function JoinWithComma(parts: seq<string>): string
  {
    if parts == [] then ""
    else if |parts| == 1 then parts[0]
    else parts[0] + "," + JoinWithComma(parts[1..])
  }

  /** The exact decimal text of an integer, a minus sign before the digits of a negative one (`String(n)` for |n| < 2^53). */
  function IntToDecimal(n: int): string
  {
    if n < 0 then "-" + NatToDecimal(-n) else NatToDecimal(n)
  }

  /** Distinct naturals render as distinct digit strings. */
  lemma NatToDecimalInjective(a: nat, b: nat)
    requires NatToDecimal(a) == NatToDecimal(b)
    ensures a == b
  {
    DecimalRoundTrip(a);
    DecimalRoundTrip(b);
  }

  /** Distinct integers render as distinct text, negative ones included. */
  lemma IntToDecimalInjective(a: int, b: int)
    requires IntToDecimal(a) == IntToDecimal(b)
    ensures a == b
  {
    var sa, sb := IntToDecimal(a), IntToDecimal(b);
    if a < 0 && b < 0 {
      assert sa[1..] == NatToDecimal(-a);
      assert sb[1..] == NatToDecimal(-b);
      NatToDecimalInjective(-a, -b);
    } else if a >= 0 && b >= 0 {
      NatToDecimalInjective(a, b);
    }
  }

  /** `${v}` where `v` may be `undefined` (a property the arguments object lacks). */
  function TemplateString(v: Option<Json>): (s: string)
    ensures v.None? ==> s == "undefined"
    ensures v.Some? && v.value.JStr? ==> s == v.value.s
  {
    match v
    case None => "undefined"
    case Some(j) => ToJsString(j)
  }

  /** Two numeric ids interpolate to the same text only when they are the same number. */
  lemma NumericIdsInterpolateDistinctly(a: int, b: int)
    ensures TemplateString(Some(JNum(a))) == TemplateString(Some(JNum(b))) <==> a == b
  {
    if TemplateString(Some(JNum(a))) == TemplateString(Some(JNum(b))) {
      IntToDecimalInjective(a, b);
    }
  }
}
