/** The part of JavaScript's value model the adapter relies on: JSON-like values,
    truthiness, lodash's `isEmpty` and own-property lookup on plain objects. */
module Json {
  import opened Wrappers

  /** An object keeps its properties in the order `Object.getOwnPropertyNames` reports them
      (integer-like keys first, ascending, then the others in insertion order). */
  datatype Json =
    | JNull
    | JBool(b: bool)
    | JNum(n: real)
    | JStr(s: string)
    | JArr(items: seq<Json>)
    | JObj(fields: Fields)

  type Fields = seq<(string, Json)>

  /** JavaScript truthiness (NaN is not representable here). */
  predicate Truthy(v: Json) {
    match v
    case JNull => false
    case JBool(b) => b
    case JNum(n) => n != 0.0
    case JStr(s) => s != ""
    case JArr(_) => true
    case JObj(_) => true
  }

  /** Truthiness of an optional string setting: undefined, null and '' are falsy. */
  predicate TruthyString(s: Option<string>) {
    s.Some? && s.value != ""
  }

  /** lodash `_.isEmpty`: empty collections and strings, and every number, boolean and null. */
  predicate IsEmpty(v: Json) {
    match v
    case JArr(items) => |items| == 0
    case JObj(fields) => |fields| == 0
    case JStr(s) => s == ""
    case _ => true
  }

  /** `obj.hasOwnProperty(key)`: some property has that name. */
  predicate HasOwn(fields: Fields, key: string) {
    |fields| > 0 && (fields[0].0 == key || HasOwn(fields[1..], key))
  }

  /** `obj[key]`: the value of the first property with that name, or undefined. */
  function Get(fields: Fields, key: string): (r: Option<Json>)
    ensures r.Some? <==> HasOwn(fields, key)
    ensures r.Some? ==> (key, r.value) in fields
  {
    if |fields| == 0 then None
    else if fields[0].0 == key then Some(fields[0].1)
    else
      Get(fields[1..], key)
  }

  /** The assignment `obj[key] = value`: overwrite the property in place, or append it. */
  function Set(fields: Fields, key: string, value: Json): (r: Fields)
    ensures Get(r, key) == Some(value)
    ensures forall k :: k != key ==> Get(r, k) == Get(fields, k)
    ensures HasOwn(fields, key) ==> |r| == |fields|
    ensures !HasOwn(fields, key) ==> r == fields + [(key, value)]
  {
    if |fields| == 0 then [(key, value)]
    else if fields[0].0 == key then [(key, value)] + fields[1..]
    else
      var rest := Set(fields[1..], key, value);
      assert ([fields[0]] + rest)[1..] == rest;
      [fields[0]] + rest
  }
}
