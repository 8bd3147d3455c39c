/**
 * The few PHP value rules the client's logic depends on: decoded JSON values,
 * truthiness, the loose `==` on identifiers, string building with `join`,
 * and reading a property out of an associative array.
 */
module Php {
  import opened Wrappers

  /** A decoded JSON value, as `json_decode` produces it. */
  datatype Json =
    | JNull
    | JBool(b: bool)
    | JNum(n: int)
    | JStr(s: string)
    | JArr(items: seq<Json>)
    | JObj(fields: map<string, Json>)

  /**
   * PHP truthiness of a decoded value (`if ($data)`): `null`, `false`, `0`,
   * `""`, `"0"` and the empty array are falsy; an object is always truthy,
   * even an empty one.
   */
  predicate JsonTruthy(j: Json) {
    match j
    case JNull => false
    case JBool(b) => b
    case JNum(n) => n != 0
    case JStr(s) => s != "" && s != "0"
    case JArr(items) => |items| > 0
    case JObj(_) => true
  }

  /** PHP truthiness of an optional string property: unset, `""` and `"0"` are falsy. */
  predicate Truthy(s: Option<string>) {
    s.Some? && s.value != "" && s.value != "0"
  }

  /** The string PHP compares when one side of a loose `==` is `null`. */
  function LooseText(s: Option<string>): (r: string) {
    s.GetOr("")
  }

  /**
   * PHP's loose `==` between two identifiers that are each a string or
   * `null`: `null` compares equal to `null` and to `""`; two strings compare
   * by their text.
   */
  predicate LooseEquals(a: Option<string>, b: Option<string>) {
    LooseText(a) == LooseText(b)
  }

  lemma LooseEqualsNulls()
    ensures LooseEquals(None, None)
    ensures LooseEquals(None, Some(""))
    ensures !LooseEquals(None, Some("0"))
  {
  }

  /** `join($sep, $parts)`: the parts, in order, with `sep` between neighbours. */
  function Join(sep: string, parts: seq<string>): (r: string)
    ensures |parts| == 0 ==> r == ""
    ensures |parts| == 1 ==> r == parts[0]
    ensures |parts| == 2 ==> r == parts[0] + sep + parts[1]
  {
    if |parts| == 0 then ""
    else if |parts| == 1 then parts[0]
    else parts[0] + sep + Join(sep, parts[1..])
  }

  /** `[$s]` when `$s` is truthy, `[]` otherwise: one guarded `$parts[] = $s`. */
  function PartIfTruthy(s: Option<string>): (r: seq<string>)
    ensures |r| <= 1
    ensures |r| == 1 <==> Truthy(s)
    ensures |r| == 1 ==> r[0] == s.value
  {
    if Truthy(s) then [s.value] else []
  }

  /** A decimal digit character. */
  function Digit(d: nat): (c: char)
    requires d < 10
    ensures '0' <= c <= '9' && c as int - '0' as int == d
  {
    ('0' as int + d) as char
  }

  /** The number a string of decimal digits denotes. */
  function DigitsValue(s: string): (r: nat)
    requires forall i :: 0 <= i < |s| ==> '0' <= s[i] <= '9'
  {
    if |s| == 0 then 0
    else DigitsValue(s[..|s| - 1]) * 10 + (s[|s| - 1] as int - '0' as int)
  }

  /** The decimal text of a natural number, as string interpolation writes it. */
  function NatToString(n: nat): (r: string)
    ensures |r| > 0
    ensures n >= 1 ==> r[0] != '0'
    ensures forall i :: 0 <= i < |r| ==> '0' <= r[i] <= '9'
    decreases n
  {
    if n < 10 then [Digit(n)] else NatToString(n / 10) + [Digit(n % 10)]
  }

  /** The decimal text reads back as the number it was written from. */
  lemma {:induction false} NatToStringValue(n: nat)
    ensures DigitsValue(NatToString(n)) == n
    decreases n
  {
    var r := NatToString(n);
    if n >= 10 {
      NatToStringValue(n / 10);
      assert r[..|r| - 1] == NatToString(n / 10);
    } else {
      assert r[..|r| - 1] == [];
    }
  }

  /** The decimal text of an integer, as string interpolation writes it. */
  function IntToString(i: int): (r: string)
    ensures |r| > 0
    ensures (r[0] == '-') <==> i < 0
  {
    if i < 0 then "-" + NatToString(-i) else NatToString(i)
  }

  /** `$values[$key]` as a string property: unset, `null` or a non-string give `None`. */
  function StringAt(values: map<string, Json>, key: string): (r: Option<string>)
    ensures r.Some? <==> key in values && values[key].JStr?
    ensures r.Some? ==> values[key] == JStr(r.value)
  {
    if key in values && values[key].JStr? then Some(values[key].s) else None
  }

  /**
   * `$values[$key]` as a nested associative array: unset, `null` or a
   * scalar give the empty array (what `setValues` then assigns nothing from).
   */
  function ObjectAt(values: map<string, Json>, key: string): (r: map<string, Json>)
    ensures key in values && values[key].JObj? ==> r == values[key].fields
    ensures !(key in values && values[key].JObj?) ==> r == map[]
  {
    if key in values && values[key].JObj? then values[key].fields else map[]
  }

  /** `isset($values[$key])`: the key is present and its value is not `null`. */
  predicate IsSet(values: map<string, Json>, key: string) {
    key in values && values[key] != JNull
  }
}
