/** The slice of JavaScript value semantics the control dispatcher relies on:
    truthiness (`if (v)`, `v || d`), `Number(v)`, `Math.trunc`, `String(v)`
    and ASCII `toLowerCase`. Numbers are finite and modelled as exact
    reals. */
module Js {
  import opened Maybe

  /** A field read from a decoded payload: `undefined` when the field is
      missing, otherwise a JSON value. `Obj` is a JSON object; `ownToString`
      says whether it has an own `toString` property. No JSON value is a
      function, so such an object has no callable `toString` (nor a
      `valueOf` that yields a primitive) and every conversion of it to a
      primitive throws a TypeError. */
  datatype Value = Undefined | Null | Bool(b: bool) | Num(x: real) | Str(s: string) | Obj(ownToString: bool)

  /** Whether `String(v)` and `Number(v)` return rather than throw. */
  predicate Converts(v: Value) {
    !(v.Obj? && v.ownToString)
  }

  /** The result of JavaScript's ToNumber on a value. */
  datatype Number = NaN | Finite(x: real)

  /** ToBoolean: the values `if (v)` accepts and `v || d` keeps. */
  predicate Truthy(v: Value) {
    match v
    case Undefined => false
    case Null => false
    case Bool(b) => b
    case Num(x) => x != 0.0
    case Str(s) => s != ""
    case Obj(_) => true
  }

  /** The expression `a || b`. */
  function Or(a: Value, b: Value): Value {
    if Truthy(a) then a else b
  }

  predicate IsDigit(c: char) {
    '0' <= c <= '9'
  }

  function DigitValue(c: char): nat
    requires IsDigit(c)
  {
    c as int - '0' as int
  }

  function DigitChar(d: nat): char
    requires d < 10
  {
    ('0' as int + d) as char
  }

  predicate AllDigits(s: string) {
    forall i :: 0 <= i < |s| ==> IsDigit(s[i])
  }

  /** The value of a run of decimal digits, most significant first. */
  function DigitsValue(s: string): nat
    requires AllDigits(s)
  {
    if s == [] then 0 else DigitsValue(s[..|s| - 1]) * 10 + DigitValue(s[|s| - 1])
  }

  /** `Number(s)` for a string: the empty string is 0 and an optionally signed
      run of decimal digits is that integer; every other string is NaN here. */
  function StringToNumber(s: string): Number {
    if s == [] then Finite(0.0)
    else if AllDigits(s) then Finite(DigitsValue(s) as real)
    else if (s[0] == '-' || s[0] == '+') && |s| > 1 && AllDigits(s[1..]) then
      var n := DigitsValue(s[1..]) as real;
      Finite(if s[0] == '-' then -n else n)
    else NaN
  }

  /** JavaScript's ToNumber, i.e. `Number(v)`; `None` when it throws. An
      object that converts at all becomes `"[object Object]"`, which is NaN. */
  function ToNumber(v: Value): (n: Option<Number>)
    ensures n.None? <==> !Converts(v)
  {
    match v
    case Undefined => Some(NaN)
    case Null => Some(Finite(0.0))
    case Bool(b) => Some(Finite(if b then 1.0 else 0.0))
    case Num(x) => Some(Finite(x))
    case Str(s) => Some(StringToNumber(s))
    case Obj(ownToString) => if ownToString then None else Some(NaN)
  }

  /** `Math.trunc` on a finite number: rounds toward zero. */
  function Trunc(x: real): (r: int)
    ensures 0.0 <= x ==> 0 <= r && r as real <= x < r as real + 1.0
    ensures x < 0.0 ==> r <= 0 && r as real - 1.0 < x <= r as real
  {
    if x >= 0.0 then x.Floor else -((-x).Floor)
  }

  /** Decimal digits of a natural number, most significant first, no leading
      zeros. */
  function NatToDecimal(n: nat): (r: string)
    ensures |r| > 0 && AllDigits(r)
  {
    if n < 10 then [DigitChar(n)] else NatToDecimal(n / 10) + [DigitChar(n % 10)]
  }

  /** `String(n)` for an integer. */
  function IntToDecimal(n: int): string {
    if n < 0 then "-" + NatToDecimal(-n) else NatToDecimal(n)
  }

  /** Up to `budget` decimal digits of a fraction in [0, 1), stopping when it
      is exhausted. */
  function FractionDigits(f: real, budget: nat): string
    requires 0.0 <= f < 1.0
    decreases budget
  {
    if f == 0.0 || budget == 0 then ""
    else
      var d := (f * 10.0).Floor;
      [DigitChar(d)] + FractionDigits(f * 10.0 - d as real, budget - 1)
  }

  /** `String(x)` for a finite number: integers are written in decimal;
      other numbers as sign, integer part, '.', and up to twenty fraction
      digits. */
  function NumberToString(x: real): string {
    if x == x.Floor as real then IntToDecimal(x.Floor)
    else
      var t := Trunc(x);
      var whole := if t < 0 then -t else t;
      var frac := (if x < 0.0 then -x else x) - whole as real;
      (if x < 0.0 then "-" else "") + NatToDecimal(whole) + "." + FractionDigits(frac, 20)
  }

  /** `String(v)`; `None` when it throws. */
  function ToString(v: Value): (r: Option<string>)
    ensures r.None? <==> !Converts(v)
    ensures v.Str? ==> r == Some(v.s)
  {
    match v
    case Undefined => Some("undefined")
    case Null => Some("null")
    case Bool(b) => Some(if b then "true" else "false")
    case Num(x) => Some(NumberToString(x))
    case Str(s) => Some(s)
    case Obj(ownToString) => if ownToString then None else Some("[object Object]")
  }

  function LowerChar(c: char): char {
    if 'A' <= c <= 'Z' then (c as int + 32) as char else c
  }

  /** No ASCII capital letter occurs in `s`. */
  predicate NoCapitals(s: string) {
    forall i :: 0 <= i < |s| ==> !('A' <= s[i] <= 'Z')
  }

  /** `s.toLowerCase()` restricted to ASCII letters. */
  function ToLower(s: string): (r: string)
    ensures |r| == |s|
    ensures forall i :: 0 <= i < |s| ==> r[i] == LowerChar(s[i])
  {
    seq(|s|, i requires 0 <= i < |s| => LowerChar(s[i]))
  }

  /** A string without ASCII capitals is its own lower-case form. */
  lemma ToLowerOfLower(s: string)
    requires NoCapitals(s)
    ensures ToLower(s) == s
  {
    assert forall i :: 0 <= i < |s| ==> ToLower(s)[i] == s[i];
  }

  /** Lower-casing twice is lower-casing once. */
  lemma ToLowerIdempotent(s: string)
    ensures ToLower(ToLower(s)) == ToLower(s)
  {
    ToLowerOfLower(ToLower(s));
  }

  lemma {:induction false} DigitsValueOfDecimal(n: nat)
    ensures DigitsValue(NatToDecimal(n)) == n
    decreases n
  {
    if n >= 10 {
      var s := NatToDecimal(n);
      DigitsValueOfDecimal(n / 10);
      assert s[..|s| - 1] == NatToDecimal(n / 10);
    }
  }

  /** `Number(String(n)) === n` for every integer: the decimal rendering the
      key fields go through and the parser the scroll deltas go through are
      inverse on integers. */
  lemma {:induction false} StringToNumberOfDecimal(n: int)
    ensures StringToNumber(IntToDecimal(n)) == Finite(n as real)
  {
    if n < 0 {
      var s := IntToDecimal(n);
      DigitsValueOfDecimal(-n);
      assert s[1..] == NatToDecimal(-n);
      assert !AllDigits(s) by { assert !IsDigit(s[0]); }
    } else {
      DigitsValueOfDecimal(n);
    }
  }

}
