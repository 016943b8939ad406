/**
 * The part of PHP's value semantics the session manager depends on: values read
 * from a configuration object or from the environment, the loose comparison
 * `$v == null`, the `(int)` cast, string conversion (`.`) and truthiness (`if ($v)`).
 */
module Php {

  /** A PHP value as it can appear in a setting or as cached content. */
  datatype Value =
    | Null
    | Bool(b: bool)
    | Int(i: int)
    | Str(s: string)
    | Arr(items: seq<Value>)
    | Obj(props: seq<Value>)

  /** `$v == null` with PHP's loose comparison. */
  predicate LooseNull(v: Value) {
    match v
    case Null => true
    case Bool(b) => !b
    case Int(i) => i == 0
    case Str(s) => s == ""
    case Arr(items) => items == []
    case Obj(_) => false
  }

  /** `if ($v)`: PHP truthiness. */
  predicate Truthy(v: Value) {
    match v
    case Null => false
    case Bool(b) => b
    case Int(i) => i != 0
    case Str(s) => s != "" && s != "0"
    case Arr(items) => items != []
    case Obj(_) => true
  }

  lemma LooseNullIsFalsy(v: Value)
    ensures LooseNull(v) ==> !Truthy(v)
    ensures v.Str? && v.s == "0" ==> !LooseNull(v) && !Truthy(v)
  {
  }

  predicate IsDigit(c: char) { '0' <= c <= '9' }

  predicate IsSpace(c: char) { c == ' ' || c == '\t' || c == '\n' || c == '\r' || c == '\U{B}' || c == '\U{C}' }

  predicate AllDigits(s: string) { forall i :: 0 <= i < |s| ==> IsDigit(s[i]) }

  function DigitValue(c: char): (d: nat)
    requires IsDigit(c)
    ensures d < 10
  {
    (c - '0') as nat
  }

  function DigitChar(d: nat): (c: char)
    requires d < 10
    ensures IsDigit(c) && DigitValue(c) == d
  {
    ('0' as int + d) as char
  }

  /** The longest prefix of `s` made of decimal digits. */
  function DigitPrefix(s: string): (r: string)
    ensures |r| <= |s| && r == s[..|r|] && AllDigits(r)
    ensures |r| < |s| ==> !IsDigit(s[|r|])
  {
    if s == [] || !IsDigit(s[0]) then [] else [s[0]] + DigitPrefix(s[1..])
  }

  /** The number a string of decimal digits denotes. */
  function DigitsValue(ds: string): nat
    requires AllDigits(ds)
  {
    if ds == [] then 0 else DigitsValue(ds[..|ds| - 1]) * 10 + DigitValue(ds[|ds| - 1])
  }

  function TrimLeadingSpace(s: string): (r: string)
    ensures |r| <= |s| && r == s[|s| - |r|..]
    ensures r != [] ==> !IsSpace(r[0])
  {
    if s != [] && IsSpace(s[0]) then TrimLeadingSpace(s[1..]) else s
  }

  /**
   * `(int)$s` for a string: leading white space, an optional sign and the longest
   * run of decimal digits; a string without leading digits converts to 0.
   */
  function LeadingInt(s: string): int {
    var t := TrimLeadingSpace(s);
    if t != [] && t[0] == '-' then -(DigitsValue(DigitPrefix(t[1..])) as int)
    else if t != [] && t[0] == '+' then DigitsValue(DigitPrefix(t[1..]))
    else DigitsValue(DigitPrefix(t))
  }

  /** `(int)$v`. */
  function ToInt(v: Value): int {
    match v
    case Null => 0
    case Bool(b) => if b then 1 else 0
    case Int(i) => i
    case Str(s) => LeadingInt(s)
    case Arr(items) => if items == [] then 0 else 1
    case Obj(_) => 1
  }

  /** Decimal notation of a natural number, without leading zeros. */
  function NatToString(n: nat): (r: string)
    ensures r != [] && AllDigits(r)
    ensures n >= 10 ==> r[0] != '0'
  {
    if n < 10 then [DigitChar(n)] else NatToString(n / 10) + [DigitChar(n % 10)]
  }

  /** Decimal notation of an integer, as PHP writes it. */
  function IntToString(i: int): string {
    if i < 0 then "-" + NatToString(-i) else NatToString(i)
  }

  /**
   * String conversion by the `.` operator for every value but an object. PHP
   * raises an `Error` when an object without `__toString` is converted; this
   * model gives such a value the text "Object" instead.
   */
  function ToStr(v: Value): string {
    match v
    case Null => ""
    case Bool(b) => if b then "1" else ""
    case Int(i) => IntToString(i)
    case Str(s) => s
    case Arr(_) => "Array"
    case Obj(_) => "Object"
  }

  lemma {:induction false} DigitsOfNat(n: nat)
    ensures DigitsValue(NatToString(n)) == n
  {
    if n >= 10 {
      var front := NatToString(n / 10);
      var s := front + [DigitChar(n % 10)];
      assert s[..|s| - 1] == front;
      DigitsOfNat(n / 10);
    }
  }

  lemma {:induction false} DigitPrefixOfDigits(s: string)
    requires AllDigits(s)
    ensures DigitPrefix(s) == s
  {
    if s != [] {
      assert AllDigits(s[1..]) by {
        forall i | 0 <= i < |s[1..]| ensures IsDigit(s[1..][i]) {
          assert s[1..][i] == s[i + 1];
        }
      }
      DigitPrefixOfDigits(s[1..]);
    }
  }

  lemma LeadingIntOfDigits(digits: string)
    requires digits != [] && AllDigits(digits)
    ensures LeadingInt(digits) == DigitsValue(digits)
    ensures LeadingInt("-" + digits) == -(DigitsValue(digits) as int)
  {
    DigitPrefixOfDigits(digits);
    assert !IsSpace(digits[0]) && digits[0] != '-' && digits[0] != '+';
    assert TrimLeadingSpace(digits) == digits;
    var s := "-" + digits;
    assert TrimLeadingSpace(s) == s;
    assert s[1..] == digits;
  }

  /**
   * Casting the decimal text of an integer back with `(int)` gives the integer:
   * an environment variable `REDIS_PORT=6379` reads as the port 6379.
   */
  lemma IntRoundTrip(i: int)
    ensures ToInt(Str(IntToString(i))) == i
  {
    var n: nat := if i < 0 then -i else i;
    DigitsOfNat(n);
    LeadingIntOfDigits(NatToString(n));
  }
}
