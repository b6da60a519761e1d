/** PHP runtime notions the data-access layer relies on: nullable values, the scalar
    values a caller may pass as query arguments, `empty()`, truthiness and the decimal
    text PHP produces when an integer is concatenated to a string. */
module Php {

  datatype Option<+T> = None | Some(value: T)

  /** A scalar PHP value as a query argument. Floats are only distinguished by whether
      they are zero, the one thing the loose comparisons below look at. */
  datatype PValue =
    | PNull
    | PBool(b: bool)
    | PInt(i: int)
    | PFloat(isZero: bool)
    | PStr(s: string)

  /** `empty($s)` for a string (a PHP `null` string is modelled as ""). */
  predicate EmptyString(s: string) {
    s == "" || s == "0"
  }

  /** `empty($q)` for a value that is either `null` or a string. */
  predicate EmptyText(q: Option<string>) {
    q.None? || EmptyString(q.value)
  }

  /** `(bool)$v` for a scalar. */
  predicate Truthy(v: PValue) {
    match v
    case PNull => false
    case PBool(b) => b
    case PInt(i) => i != 0
    case PFloat(z) => !z
    case PStr(s) => !EmptyString(s)
  }

  predicate IsDigit(c: char) {
    '0' <= c <= '9'
  }

  function Digit(d: nat): (c: char)
    requires d < 10
    ensures IsDigit(c) && c as int - '0' as int == d
  {
    ['0', '1', '2', '3', '4', '5', '6', '7', '8', '9'][d]
  }

  /** Decimal text of a natural number, as PHP prints it. */
  function NatToString(n: nat): (s: string)
    ensures |s| > 0 && forall i :: 0 <= i < |s| ==> IsDigit(s[i])
    ensures (s[0] == '0') == (n == 0)
    decreases n
  {
    if n < 10 then [Digit(n)] else NatToString(n / 10) + [Digit(n % 10)]
  }

  /** Decimal text of an integer, with a leading '-' when negative. */
  function IntToString(n: int): (s: string)
    ensures |s| > 0
    ensures (s[0] == '-') == (n < 0)
    ensures n < 0 ==> s[1..] == NatToString(-n)
    ensures n >= 0 ==> s == NatToString(n)
  {
    if n < 0 then "-" + NatToString(-n) else NatToString(n)
  }

  /** Reading the digits back gives the number: the rendering loses nothing. */
  function DigitsValue(s: string): int
  {
    if s == [] then 0 else DigitsValue(s[..|s| - 1]) * 10 + (s[|s| - 1] as int - '0' as int)
  }

  lemma {:induction false} NatToStringRoundTrip(n: nat)
    ensures DigitsValue(NatToString(n)) == n
    decreases n
  {
    var s := NatToString(n);
    if n >= 10 {
      NatToStringRoundTrip(n / 10);
      assert s[..|s| - 1] == NatToString(n / 10);
    }
  }
}
