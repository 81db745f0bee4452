/**
 * JavaScript values as the engine receives them from `JSON.parse`, from a caller or from a
 * form, and the coercions the engine applies to them: `Number(x)`, `String(x)`,
 * `Boolean(x)`, `typeof x === 'object'`, `Array.isArray(x)` and property access.
 *
 * The fields of `JObj` are listed in the order `Object.keys` enumerates them.
 */
module Json {
  import opened Wrappers

  datatype Json =
    | JUndefined
    | JNull
    | JBool(b: bool)
    | JNum(n: real)               // a finite number
    | JNaN
    | JInfinity(negative: bool)
    | JStr(s: string)
    | JArr(items: seq<Json>)
    | JObj(fields: seq<(string, Json)>)

  /** `typeof x === 'object' && x !== null` (arrays are objects). */
  predicate IsObject(j: Json) {
    j.JObj? || j.JArr?
  }

  /** `Boolean(x)`: JavaScript truthiness. */
  predicate Truthy(j: Json) {
    match j
    case JUndefined => false
    case JNull => false
    case JBool(b) => b
    case JNum(n) => n != 0.0
    case JNaN => false
    case JInfinity(_) => true
    case JStr(s) => s != ""
    case JArr(_) => true
    case JObj(_) => true
  }

  predicate IsDigit(c: char) {
    '0' <= c <= '9'
  }

  function DigitValue(c: char): nat
    requires IsDigit(c)
  {
    c as int - '0' as int
  }

  function DigitChar(d: nat): (c: char)
    requires d < 10
    ensures IsDigit(c) && DigitValue(c) == d
  {
    ('0' as int + d) as char
  }

  predicate AllDigits(s: string) {
    forall i :: 0 <= i < |s| ==> IsDigit(s[i])
  }

  /** The value of a string of decimal digits, most significant first. */
  function DigitsValue(s: string): nat
    requires AllDigits(s)
  {
    if s == [] then 0 else DigitsValue(s[..|s| - 1]) * 10 + DigitValue(s[|s| - 1])
  }

  /** `String(n)` for a natural number: its shortest decimal numeral. */
  function NatToString(n: nat): (s: string)
    ensures s != [] && AllDigits(s)
  {
    if n < 10 then [DigitChar(n)] else NatToString(n / 10) + [DigitChar(n % 10)]
  }

  /** Reading the numeral `String(n)` back gives `n`. */
  lemma {:induction false} NatToStringRoundTrip(n: nat)
    ensures DigitsValue(NatToString(n)) == n
  {
    if n >= 10 {
      var p := NatToString(n / 10);
      var s := NatToString(n);
      assert s[..|s| - 1] == p;
      NatToStringRoundTrip(n / 10);
    }
  }

  /** Different numbers have different numerals. */
  lemma NatToStringInjective(m: nat, n: nat)
    requires NatToString(m) == NatToString(n)
    ensures m == n
  {
    NatToStringRoundTrip(m);
    NatToStringRoundTrip(n);
  }

  /**
   * `Number(s)` for a string, when it is finite: the empty string is 0 and a string of
   * decimal digits is its value; every other string is read as NaN here.
   */
  function StringToNumber(s: string): Option<real> {
    if AllDigits(s) then Some(DigitsValue(s) as real) else None
  }

  /**
   * `Number(x)` when the result is finite (`Number.isFinite(Number(x))`), else `None`. An array
   * converts through its `join(',')` text: `[]` is 0, a one-element array converts as its
   * element would (`null` and `undefined` as 0, booleans and objects as NaN), and a longer
   * array holds a comma and is NaN.
   */
  function ToNumber(j: Json): Option<real> {
    match j
    case JUndefined => None
    case JNull => Some(0.0)
    case JBool(b) => Some(if b then 1.0 else 0.0)
    case JNum(n) => Some(n)
    case JNaN => None
    case JInfinity(_) => None
    case JStr(s) => StringToNumber(s)
    case JArr(items) =>
      if items == [] then Some(0.0)
      else if |items| > 1 then None
      else (match items[0]
        case JUndefined => Some(0.0)
        case JNull => Some(0.0)
        case JBool(_) => None
        case _ => ToNumber(items[0]))
    case JObj(_) => None
  }

  /** `Number.isInteger(x)` for a finite number `x`. */
  predicate IsIntegral(x: real) {
    x == x.Floor as real
  }

  /** `x.value`: the first field named `key` of an object, `undefined` otherwise. */
  function Get(j: Json, key: string): Json {
    if j.JObj? then Lookup(j.fields, key) else JUndefined
  }

  function Lookup(fields: seq<(string, Json)>, key: string): Json {
    if fields == [] then JUndefined
    else if fields[0].0 == key then fields[0].1
    else Lookup(fields[1..], key)
  }

  /** Looking up a field that no earlier field shadows finds it. */
  lemma {:induction false} LookupAt(fields: seq<(string, Json)>, i: nat)
    requires i < |fields|
    requires forall j :: 0 <= j < i ==> fields[j].0 != fields[i].0
    ensures Lookup(fields, fields[i].0) == fields[i].1
  {
    if i > 0 {
      LookupAt(fields[1..], i - 1);
    }
  }

  /** `x[i]` for an index `i`: an array element, a one-character string, or a field `"i"`. */
  function Index(j: Json, i: nat): Json {
    match j
    case JArr(items) => if i < |items| then items[i] else JUndefined
    case JStr(s) => if i < |s| then JStr([s[i]]) else JUndefined
    case JObj(fields) => Lookup(fields, NatToString(i))
    case _ => JUndefined
  }

  /** `Object.keys(x).map(k => [k, x[k]])` for an object or an array. */
  function Entries(j: Json): seq<(string, Json)> {
    match j
    case JObj(fields) => fields
    case JArr(items) => seq(|items|, i requires 0 <= i < |items| => (NatToString(i), items[i]))
    case _ => []
  }

  /** `String(n)` for an integer. */
  function IntToString(n: int): string {
    if n < 0 then "-" + NatToString(-n) else NatToString(n)
  }

  /**
   * `String(x)`. The text JavaScript gives a non-integer number is not modelled, so for such a
   * number, and for an array holding one, the result is `None`. An integer is written out in
   * digits, which is JavaScript's text only below 10^21: from there on JavaScript writes the
   * exponent form ("1e+21").
   */
  function ToJsString(j: Json): Option<string> {
    match j
    case JUndefined => Some("undefined")
    case JNull => Some("null")
    case JBool(b) => Some(if b then "true" else "false")
    case JNum(n) => if IsIntegral(n) then Some(IntToString(n.Floor)) else None
    case JNaN => Some("NaN")
    case JInfinity(neg) => Some(if neg then "-Infinity" else "Infinity")
    case JStr(s) => Some(s)
    case JArr(items) => JoinItems(items)
    case JObj(_) => Some("[object Object]")
  }

  /** `items.join(',')`, where `null` and `undefined` elements become empty strings. */
  function JoinItems(items: seq<Json>): Option<string>
    decreases items
  {
    if items == [] then Some("")
    else
      var first := if items[0].JNull? || items[0].JUndefined? then Some("") else ToJsString(items[0]);
      if |items| == 1 then first
      else match (first, JoinItems(items[1..]))
        case (Some(a), Some(b)) => Some(a + "," + b)
        case _ => None
  }
}
