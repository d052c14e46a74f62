/**
 * JavaScript values as the server and the client see them after JSON parsing, and the
 * few built-in operations on them the application relies on: truthiness, `||`, `===`,
 * property reads, `parseFloat`, and what `JSON.stringify` does to a NaN.
 */
module JsValues {

  datatype Option<T> = None | Some(value: T)

  /** A JavaScript value. `NaN` is kept apart from the finite numbers `Num`. */
  datatype Js =
    | Undefined
    | Null
    | Bool(b: bool)
    | Num(n: real)
    | NaN
    | Str(s: string)
    | Obj(fields: map<string, Js>)

  /** JavaScript truthiness: `undefined`, `null`, `false`, `0`, `NaN` and `""` are falsy. */
  predicate Truthy(v: Js)
    ensures Truthy(v) <==> v !in {Undefined, Null, Bool(false), Num(0.0), NaN, Str("")}
  {
    match v
    case Undefined => false
    case Null => false
    case Bool(b) => b
    case Num(n) => n != 0.0
    case NaN => false
    case Str(s) => s != ""
    case Obj(_) => true
  }

  /** `a || b`: the left operand when it is truthy, otherwise the right one. */
  function Or(a: Js, b: Js): (r: Js)
    ensures Truthy(a) ==> r == a
    ensures !Truthy(a) ==> r == b
  {
    if Truthy(a) then a else b
  }

  /**
   * `a === b` for values that came from different JSON documents: NaN equals nothing and
   * two objects are never the same reference.
   */
  predicate StrictEq(a: Js, b: Js)
    ensures StrictEq(a, b) ==> a == b
  {
    match a
    case NaN => false
    case Obj(_) => false
    case _ => a == b
  }

  /** `===` is symmetric, and a value equals itself unless it is NaN or an object. */
  lemma StrictEqLaws(a: Js, b: Js)
    ensures StrictEq(a, b) <==> StrictEq(b, a)
    ensures StrictEq(a, a) <==> !a.NaN? && !a.Obj?
  {
  }

  /** `v.key` (and `v?.key`): a missing property, or a read on a non-object, is `undefined`. */
  function Get(v: Js, key: string): (r: Js)
    ensures r != Undefined ==> v.Obj? && key in v.fields && r == v.fields[key]
    ensures v.Obj? && key in v.fields ==> r == v.fields[key]
  {
    if v.Obj? && key in v.fields then v.fields[key] else Undefined
  }

  /** `JSON.stringify` writes NaN as `null`; every other value read back here is unchanged. */
  function Serialized(v: Js): (r: Js)
    ensures r != NaN
    ensures v != NaN ==> r == v
  {
    if v.NaN? then Null else v
  }

  // ---------------------------------------------------------------------------
  // parseFloat

  predicate IsDigit(c: char) { '0' <= c <= '9' }

  /**
   * The characters `parseFloat` skips in front of a number and `trim` strips: the white-space
   * characters and the line terminators of ECMAScript (tab, vertical tab, form feed, the space
   * separators of Unicode, the byte order mark, line feed, carriage return, U+2028, U+2029).
   */
  predicate IsSpace(c: char)
  {
    c == ' ' || c == '\t' || c == '\n' || c == '\r' || c == '\U{000B}' || c == '\U{000C}'
    || c == '\U{00A0}' || c == '\U{1680}' || ('\U{2000}' <= c <= '\U{200A}') || c == '\U{202F}'
    || c == '\U{205F}' || c == '\U{3000}' || c == '\U{FEFF}' || c == '\U{2028}' || c == '\U{2029}'
  }

  function SkipSpace(s: string): (r: string)
    ensures |r| <= |s| && r == s[|s| - |r|..]
    ensures r == [] || !IsSpace(r[0])
  {
    if s != [] && IsSpace(s[0]) then SkipSpace(s[1..]) else s
  }

  /** The number of decimal digits at the start of `s`. */
  function LeadingDigits(s: string): (n: nat)
    ensures n <= |s|
    ensures forall i :: 0 <= i < n ==> IsDigit(s[i])
    ensures n < |s| ==> !IsDigit(s[n])
  {
    if s != [] && IsDigit(s[0]) then 1 + LeadingDigits(s[1..]) else 0
  }

  function DigitValue(c: char): (d: nat)
    requires IsDigit(c)
    ensures d < 10
  {
    c as int - '0' as int
  }

  /** The value of a string of decimal digits. */
  function DigitsValue(s: string): nat
    requires forall i :: 0 <= i < |s| ==> IsDigit(s[i])
  {
    if s == [] then 0
    else 10 * DigitsValue(s[..|s| - 1]) + DigitValue(s[|s| - 1])
  }

  function Pow10(k: nat): (r: real)
    ensures r >= 1.0
  {
    if k == 0 then 1.0 else 10.0 * Pow10(k - 1)
  }

  /** The exponent of an `e`/`E` suffix; an incomplete suffix is not part of the number. */
  function Exponent(s: string): int
  {
    if s != [] && (s[0] == 'e' || s[0] == 'E') then
      var t := s[1..];
      var neg := t != [] && t[0] == '-';
      var u := if t != [] && (t[0] == '-' || t[0] == '+') then t[1..] else t;
      var n := LeadingDigits(u);
      if n == 0 then 0
      else if neg then -(DigitsValue(u[..n]) as int) else DigitsValue(u[..n]) as int
    else 0
  }

  /** The digits right after a leading `.` of `s`, if `s` starts with one. */
  function Fraction(s: string): (f: string)
    ensures forall i :: 0 <= i < |f| ==> IsDigit(f[i])
  {
    if s != [] && s[0] == '.' then s[1..][..LeadingDigits(s[1..])] else []
  }

  /** What follows the fraction part that starts `s`. */
  function AfterFraction(s: string): string
  {
    if s != [] && s[0] == '.' then s[1..][LeadingDigits(s[1..])..] else s
  }

  /** A decimal number without sign at the start of `u`: digits, a fraction, an exponent. */
  function ParseUnsigned(u: string): Option<real>
  {
    var n := LeadingDigits(u);
    var frac := Fraction(u[n..]);
    if n + |frac| == 0 then None
    else
      var mantissa := DigitsValue(u[..n]) as real + DigitsValue(frac) as real / Pow10(|frac|);
      var e := Exponent(AfterFraction(u[n..]));
      Some(if e >= 0 then mantissa * Pow10(e) else mantissa / Pow10(-e))
  }

  /**
   * `parseFloat` on a string: the longest decimal prefix after leading white space, or
   * `None` (NaN) when there is none.
   */
  function ParseNum(s: string): Option<real>
  {
    var t := SkipSpace(s);
    if t != [] && (t[0] == '-' || t[0] == '+') then
      match ParseUnsigned(t[1..])
      case Some(x) => Some(if t[0] == '-' then -x else x)
      case None => None
    else ParseUnsigned(t)
  }

  /**
   * `parseFloat(v)`: the argument is converted to a string first, so a finite number comes
   * back unchanged and `undefined`, `null`, booleans, NaN and objects give NaN.
   */
  function ParseFloat(v: Js): (r: Js)
    ensures r.Num? || r.NaN?
    ensures v.Num? ==> r == v
  {
    match v
    case Num(n) => Num(n)
    case Str(s) => (match ParseNum(s) case Some(x) => Num(x) case None => NaN)
    case _ => NaN
  }

  /** `parseFloat(v) || d` for a numeric default `d`: the parsed number unless it is 0 or NaN. */
  function ParseFloatOr(v: Js, d: real): (r: real)
    ensures ParseFloat(v).Num? && ParseFloat(v).n != 0.0 ==> r == ParseFloat(v).n
    ensures !(ParseFloat(v).Num? && ParseFloat(v).n != 0.0) ==> r == d
  {
    var p := ParseFloat(v);
    if Truthy(p) then p.n else d
  }

  lemma {:induction false} ParseNumOfDigits(s: string)
    requires s != [] && forall i :: 0 <= i < |s| ==> IsDigit(s[i])
    ensures ParseNum(s) == Some(DigitsValue(s) as real)
  {
    assert !IsSpace(s[0]);
    assert SkipSpace(s) == s;
    assert LeadingDigits(s) == |s| by { LeadingDigitsAll(s); }
    assert s[..|s|] == s;
  }

  lemma {:induction false} LeadingDigitsAll(s: string)
    requires forall i :: 0 <= i < |s| ==> IsDigit(s[i])
    ensures LeadingDigits(s) == |s|
  {
    if s != [] {
      LeadingDigitsAll(s[1..]);
    }
  }

  lemma ParseNumOfBlank(s: string)
    requires forall i :: 0 <= i < |s| ==> IsSpace(s[i])
    ensures ParseNum(s) == None
  {
    SkipAllSpace(s);
  }

  lemma {:induction false} SkipAllSpace(s: string)
    requires forall i :: 0 <= i < |s| ==> IsSpace(s[i])
    ensures SkipSpace(s) == []
  {
    if s != [] {
      SkipAllSpace(s[1..]);
    }
  }
}
