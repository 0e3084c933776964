/** PHP scalar values and the few language operations the renderer relies on:
    `empty`, `isset` on an array element, the `(int)` and `(string)` casts and
    `implode`. */
module Php {

  /** A scalar as it can sit in an options array or a record property. */
  datatype Value = Null | Bool(b: bool) | Int(i: int) | Str(s: string)

  /** A PHP array with string keys, as the renderer's `$options`. */
  type Options = map<string, Value>

  /** `empty($v)`: null, false, 0, "" and "0" are empty, everything else is not. */
  predicate Empty(v: Value) {
    match v
    case Null => true
    case Bool(b) => !b
    case Int(i) => i == 0
    case Str(s) => s == "" || s == "0"
  }

  /** `isset($o[$key])`: the key is present and its value is not null. */
  predicate IsSet(o: Options, key: string) {
    key in o && o[key] != Null
  }

  /** `empty($o[$key])`: a missing key is empty. */
  predicate EmptyAt(o: Options, key: string) {
    key !in o || Empty(o[key])
  }

  predicate IsDigit(c: char) {
    '0' <= c <= '9'
  }

  predicate AllDigits(s: string) {
    forall i :: 0 <= i < |s| ==> IsDigit(s[i])
  }

  /** The white space that PHP skips before a numeric string. */
  predicate IsSpace(c: char) {
    c == ' ' || c == '\t' || c == '\n' || c == '\r' || c == '\U{B}' || c == '\U{C}'
  }

  function DigitChar(d: nat): (c: char)
    requires d < 10
    ensures IsDigit(c)
  {
    (('0' as int) + d) as char
  }

  function DigitValue(c: char): (d: nat)
    requires IsDigit(c)
    ensures d < 10 && DigitChar(d) == c
  {
    (c as int) - ('0' as int)
  }

  /** The decimal digits of a natural number, without leading zeros. */
  function Digits(n: nat): (r: string)
    ensures |r| >= 1 && AllDigits(r)
    ensures r[0] == '0' <==> n == 0
    decreases n
  {
    if n < 10 then [DigitChar(n)] else Digits(n / 10) + [DigitChar(n % 10)]
  }

  /** `(string)$n` for an integer. */
  function Decimal(n: int): string {
    if n < 0 then "-" + Digits(-n) else Digits(n)
  }

  /** The longest prefix of `s` made of digits. */
  function LeadingDigits(s: string): (r: string)
    ensures r <= s && AllDigits(r)
    ensures |r| < |s| ==> !IsDigit(s[|r|])
  {
    if s != [] && IsDigit(s[0]) then [s[0]] + LeadingDigits(s[1..]) else []
  }

  /** The number a run of decimal digits denotes. */
  function DigitsValue(ds: string): nat
    requires AllDigits(ds)
  {
    if ds == [] then 0 else DigitsValue(ds[..|ds| - 1]) * 10 + DigitValue(ds[|ds| - 1])
  }

  /** `s` without its leading white space. */
  function TrimLeft(s: string): (r: string)
    ensures |r| <= |s|
    ensures r == [] || !IsSpace(r[0])
  {
    if s != [] && IsSpace(s[0]) then TrimLeft(s[1..]) else s
  }

  /** `(int)$s` for a string: leading white space, an optional sign and the
      longest run of digits that follows; whatever comes after is ignored, and
      a string with no digits there gives 0. */
  function StrToInt(s: string): int {
    SignedValue(TrimLeft(s))
  }

  /** The value of an optional sign followed by the leading digits of `t`. */
  function SignedValue(t: string): int {
    if t != [] && t[0] == '-' then 0 - DigitsValue(LeadingDigits(t[1..]))
    else if t != [] && t[0] == '+' then DigitsValue(LeadingDigits(t[1..]))
    else DigitsValue(LeadingDigits(t))
  }

  /** `(int)$v`. */
  function IntCast(v: Value): int {
    match v
    case Null => 0
    case Bool(b) => if b then 1 else 0
    case Int(i) => i
    case Str(s) => StrToInt(s)
  }

  /** `(string)$v`, as string concatenation applies it. */
  function ToStr(v: Value): string {
    match v
    case Null => ""
    case Bool(b) => if b then "1" else ""
    case Int(i) => Decimal(i)
    case Str(s) => s
  }

  /** `implode($glue, $pieces)`. */
  function Implode(glue: string, pieces: seq<string>): string {
    if |pieces| == 0 then ""
    else if |pieces| == 1 then pieces[0]
    else pieces[0] + glue + Implode(glue, pieces[1..])
  }

  lemma {:induction false} DigitsValueOfDigits(n: nat)
    ensures DigitsValue(Digits(n)) == n
    decreases n
  {
    if n >= 10 {
      var ds := Digits(n);
      assert ds[..|ds| - 1] == Digits(n / 10);
      DigitsValueOfDigits(n / 10);
    }
  }

  lemma {:induction false} LeadingDigitsOfRun(ds: string, rest: string)
    requires AllDigits(ds)
    requires rest == [] || !IsDigit(rest[0])
    ensures LeadingDigits(ds + rest) == ds
  {
    if ds != [] {
      assert (ds + rest)[1..] == ds[1..] + rest;
      LeadingDigitsOfRun(ds[1..], rest);
    }
  }

  /** The digits of a natural number, with a non-digit text after them, read
      back as that number. */
  lemma DigitsRunValue(m: nat, rest: string)
    requires rest == [] || !IsDigit(rest[0])
    ensures DigitsValue(LeadingDigits(Digits(m) + rest)) == m
  {
    LeadingDigitsOfRun(Digits(m), rest);
    DigitsValueOfDigits(m);
  }

  /** `(int)` of the digits of a natural number, a non-digit text after them. */
  lemma StrToIntOfDigits(m: nat, rest: string)
    requires rest == [] || !IsDigit(rest[0])
    ensures IntCast(Str(Digits(m) + rest)) == m
  {
    var s := Digits(m) + rest;
    assert IsDigit(s[0]);
    assert TrimLeft(s) == s;
    DigitsRunValue(m, rest);
  }

  /** `(int)` of a minus sign, the digits of a natural number and a non-digit
      text after them. */
  lemma StrToIntOfNegative(m: nat, rest: string)
    requires rest == [] || !IsDigit(rest[0])
    ensures IntCast(Str("-" + Digits(m) + rest)) == -(m as int)
  {
    var s := "-" + Digits(m) + rest;
    assert TrimLeft(s) == s;
    assert s[1..] == Digits(m) + rest;
    DigitsRunValue(m, rest);
  }

  /** The start of a text that PHP can read on as part of a number after a
      run of digits: a decimal point or an exponent. */
  predicate ContinuesNumber(rest: string) {
    rest != [] && (IsDigit(rest[0]) || rest[0] == '.' || rest[0] == 'e' || rest[0] == 'E')
  }

  /** Reading back what `(string)` printed gives the integer again, whatever
      unit text follows it: a `(int)` of `"200m"` is 200. */
  lemma DecimalRoundTrip(n: int, rest: string)
    requires !ContinuesNumber(rest)
    ensures IntCast(Str(Decimal(n) + rest)) == n
  {
    if n < 0 {
      StrToIntOfNegative(-n, rest);
    } else {
      StrToIntOfDigits(n, rest);
    }
  }

  /** A value that is not empty never prints as "" or "0". */
  lemma NonEmptyToStr(v: Value)
    requires !Empty(v)
    ensures ToStr(v) != "" && ToStr(v) != "0"
  {
    if v.Int? && v.i > 0 {
      var d := Digits(v.i);
      assert d[0] != '0';
    }
  }
}
