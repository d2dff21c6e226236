/** The optional-value type shared by every module of the model. */
module Wrappers {
  datatype Option<+T> = None | Some(value: T)
}

/**
 * The part of JavaScript's value semantics that the page and the route
 * handlers rely on: values as they come out of `JSON.parse` (plus
 * `undefined`), truthiness, the `||` operator, property access with and
 * without optional chaining, `String.prototype.slice` and the decimal
 * rendering of a non-negative integer.
 *
 * Numbers are modelled as mathematical integers: the handlers only ever test
 * them for truthiness or relay them, and the fractional, NaN and -0 cases are
 * not part of this model.
 */
module Js {
  import opened Wrappers

  datatype Value =
    | Undefined
    | Null
    | Bool(b: bool)
    | Num(n: int)
    | Str(s: string)
    | Arr(items: seq<Value>)
    | Obj(fields: map<string, Value>)

  /** The outcome of evaluating an expression that may throw a TypeError. */
  datatype Eval<T> = Normal(value: T) | Throws

  /** `!!v`: undefined, null, false, 0 and "" are falsy; arrays and objects are truthy. */
  predicate Truthy(v: Value) {
    match v
    case Undefined => false
    case Null => false
    case Bool(b) => b
    case Num(n) => n != 0
    case Str(s) => s != ""
    case Arr(_) => true
    case Obj(_) => true
  }

  /** `v == null`: undefined or null, the values whose properties cannot be read. */
  predicate Nullish(v: Value) {
    v.Undefined? || v.Null?
  }

  /** `a || b`: the left operand when it is truthy, the right one otherwise. */
  function Or(a: Value, b: Value): Value {
    if Truthy(a) then a else b
  }

  /**
   * `v.key` for the property names the handlers use, none of which is a
   * built-in property of strings, numbers, booleans or arrays: reading a
   * property of `undefined` or `null` throws, an object yields the member or
   * `undefined`, anything else yields `undefined`.
   */
  function Member(v: Value, key: string): Eval<Value> {
    match v
    case Undefined => Throws
    case Null => Throws
    case Obj(fields) => Normal(if key in fields then fields[key] else Undefined)
    case _ => Normal(Undefined)
  }

  /** `v?.key`: optional chaining short-circuits to `undefined` on a nullish `v`. */
  function OptionalMember(v: Value, key: string): (r: Value)
    ensures v.Obj? && key in v.fields ==> r == v.fields[key]
    ensures !(v.Obj? && key in v.fields) ==> r == Undefined
  {
    if Nullish(v) then Undefined else Member(v, key).value
  }

  /** `JSON.parse(text)` wrapped in `.catch(() => fallback)`: `None` stands for a body that is not JSON. */
  function ParsedOr(body: Option<Value>, fallback: Value): Value {
    match body
    case Some(v) => v
    case None => fallback
  }

  /** `s.slice(start, end)` for non-negative indices: both are clamped to the length. */
  function Slice(s: string, start: nat, end: nat): (r: string)
    ensures |r| <= |s| && |r| <= end
    ensures start <= end <= |s| ==> r == s[start..end]
    ensures start <= |s| < end ==> r == s[start..]
    ensures |s| <= start || end <= start ==> r == ""
  {
    var from := if start < |s| then start else |s|;
    var to := if end < |s| then end else |s|;
    if from < to then s[from..to] else ""
  }

  /** `s.split(sep)[0]`: everything before the first `sep`, or all of `s`. */
  function SplitFirst(s: string, sep: char): (r: string)
    ensures |r| <= |s| && r == s[..|r|]
    ensures sep !in r
    ensures |r| < |s| ==> s[|r|] == sep
  {
    if s == [] || s[0] == sep then [] else [s[0]] + SplitFirst(s[1..], sep)
  }

  /** Splitting at a separator placed right after a separator-free string gives that string back. */
  lemma SplitFirstAt(a: string, sep: char, b: string)
    requires sep !in a
    ensures SplitFirst(a + [sep] + b, sep) == a
  {
    var r := SplitFirst(a + [sep] + b, sep);
    assert forall i :: 0 <= i < |a| ==> (a + [sep] + b)[i] == a[i];
    assert (a + [sep] + b)[|a|] == sep;
  }

  /** Splitting at the separator that starts `b`, after a separator-free `a`, gives `a`. */
  lemma SplitFirstBefore(a: string, b: string, sep: char)
    requires sep !in a && b != [] && b[0] == sep
    ensures SplitFirst(a + b, sep) == a
  {
    assert a + b == a + [sep] + b[1..];
    SplitFirstAt(a, sep, b[1..]);
  }

  predicate IsDigit(c: char) {
    '0' <= c <= '9'
  }

  function DigitChar(d: nat): (c: char)
    requires d < 10
    ensures IsDigit(c)
  {
    ('0' as int + d) as char
  }

  function DigitValue(c: char): nat
    requires IsDigit(c)
  {
    c as int - '0' as int
  }

  /**
   * `String(n)` for a non-negative integer below 10^21 (the range of
   * `Date.now()`): its decimal digits, without leading zeros.
   */
  function NumberToString(n: nat): (r: string)
    ensures |r| > 0
    ensures forall i :: 0 <= i < |r| ==> IsDigit(r[i])
    ensures r[0] == '0' ==> r == "0"
    decreases n
  {
    if n < 10 then [DigitChar(n)] else NumberToString(n / 10) + [DigitChar(n % 10)]
  }

  /** The number a string of decimal digits denotes (Horner's rule from the right). */
  function DecimalValue(s: string): nat
    requires forall i :: 0 <= i < |s| ==> IsDigit(s[i])
  {
    if s == [] then 0 else DecimalValue(s[..|s| - 1]) * 10 + DigitValue(s[|s| - 1])
  }

  /** Reading back the decimal rendering of a number gives the number. */
  lemma {:induction false} NumberToStringRoundTrip(n: nat)
    ensures DecimalValue(NumberToString(n)) == n
    decreases n
  {
    var r := NumberToString(n);
    if n >= 10 {
      var p := NumberToString(n / 10);
      assert r[..|r| - 1] == p;
      NumberToStringRoundTrip(n / 10);
    }
  }

  /** Different numbers render differently. */
  lemma NumberToStringInjective(m: nat, n: nat)
    requires NumberToString(m) == NumberToString(n)
    ensures m == n
  {
    NumberToStringRoundTrip(m);
    NumberToStringRoundTrip(n);
  }
}
