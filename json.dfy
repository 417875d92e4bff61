/**
 * JavaScript values as they come out of `JSON.parse` or an HTTP body typed
 * `any`, with the truthiness test and the optional-chaining property access
 * (`v?.[key]`) the components apply to them. Numbers are integers here.
 */
module Json {
  import opened Common

  datatype Json =
    | JNull
    | JBool(b: bool)
    | JNum(n: int)
    | JStr(s: string)
    | JArr(items: seq<Json>)
    | JObj(fields: map<string, Json>)

  /** `!!v`: null, false, 0 and "" are falsy; arrays and objects are truthy. */
  predicate Truthy(v: Json)
  {
    match v
    case JNull => false
    case JBool(b) => b
    case JNum(n) => n != 0
    case JStr(s) => s != ""
    case _ => true
  }

  /** Truthiness of a value that may be `undefined` (None). */
  predicate TruthyOpt(v: Option<Json>)
  {
    v.Some? && Truthy(v.value)
  }

  /** A key naming an array index: decimal digits with no leading zero (`"0"`, `"12"`, not `"01"`). */
  predicate IsIndexKey(key: string)
  {
    |key| >= 1 && (forall i :: 0 <= i < |key| ==> IsDigit(key[i])) && (|key| > 1 ==> key[0] != '0')
  }

  /** The element an index key names in a sequence of `n` elements, if it is in range. */
  function KeyIndex(key: string, n: nat): (r: Option<nat>)
    ensures r.Some? ==> r.value < n
  {
    if IsIndexKey(key) && ParseDigits(key) < n then Some(ParseDigits(key)) else None
  }

  /**
   * `v?.[key]`: an own property of an object; an element, or `length`, of an
   * array; a one-character string, or `length`, of a string; `undefined`
   * for anything else (inherited properties are not part of the model).
   */
  function Prop(v: Option<Json>, key: string): (r: Option<Json>)
    ensures v.None? ==> r.None?
    ensures v.Some? && v.value.JObj? ==> (r.Some? <==> key in v.value.fields)
    ensures v.Some? && v.value.JObj? && r.Some? ==> r.value == v.value.fields[key]
    ensures v.Some? && (v.value.JArr? || v.value.JStr?) && key == "length" ==>
      r == Some(JNum(if v.value.JArr? then |v.value.items| else |v.value.s|))
    ensures v.Some? && (v.value.JNull? || v.value.JBool? || v.value.JNum?) ==> r.None?
  {
    match v
    case None => None
    case Some(JObj(fields)) => if key in fields then Some(fields[key]) else None
    case Some(JArr(items)) =>
      if key == "length" then Some(JNum(|items|))
      else (match KeyIndex(key, |items|)
        case Some(i) => Some(items[i])
        case None => None)
    case Some(JStr(s)) =>
      if key == "length" then Some(JNum(|s|))
      else (match KeyIndex(key, |s|)
        case Some(i) => Some(JStr([s[i]]))
        case None => None)
    case Some(_) => None
  }

  /** The decimal rendering of an in-range position reads the array's element there. */
  lemma PropArrayIndex(items: seq<Json>, i: nat)
    requires i < |items|
    ensures Prop(Some(JArr(items)), NatToString(i)) == Some(items[i])
  {
    ParseNatToString(i);
    assert NatToString(i) != "length" by {
      assert IsDigit(NatToString(i)[0]);
    }
  }

  /** An array has no element under a key that is not a decimal index, other than `length`. */
  lemma PropArrayNonIndex(items: seq<Json>, key: string)
    requires key != "length" && !IsIndexKey(key)
    ensures Prop(Some(JArr(items)), key).None?
  {
  }

  /** `Array.isArray(v)` */
  predicate IsArray(v: Option<Json>)
  {
    v.Some? && v.value.JArr?
  }
}
