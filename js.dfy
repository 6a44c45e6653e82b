/**
 * JavaScript values as they reach the functions that accept `unknown` input
 * (parsed JSON, option objects). Numbers are split into integers and
 * non-integral numbers, since only `Number.isInteger` is ever asked of them.
 */
module Js {
  datatype Json =
    | JNull
    | JUndefined
    | JBool(b: bool)
    | JInt(i: int)
    | JNonInteger            // a number for which Number.isInteger is false (1.5, NaN, Infinity)
    | JString(s: string)
    | JArray(items: seq<Json>)
    | JObject(fields: seq<(string, Json)>)

  /** JavaScript truthiness of a value. */
  predicate Truthy(v: Json)
  {
    match v
    case JNull => false
    case JUndefined => false
    case JBool(b) => b
    case JInt(i) => i != 0
    case JNonInteger => true   // NaN is the one falsy non-integer; it is not distinguished here
    case JString(s) => s != ""
    case JArray(_) => true
    case JObject(_) => true
  }

  /** Property lookup `obj[key]`: the first field with that key, or undefined. */
  function Get(v: Json, key: string): (r: Json)
    ensures !v.JObject? ==> r == JUndefined
  {
    if v.JObject? then Lookup(v.fields, key) else JUndefined
  }

  function Lookup(fields: seq<(string, Json)>, key: string): (r: Json)
    ensures r != JUndefined ==> (key, r) in fields
    ensures (forall k :: 0 <= k < |fields| ==> fields[k].0 != key) ==> r == JUndefined
  {
    if fields == [] then JUndefined
    else if fields[0].0 == key then fields[0].1
    else Lookup(fields[1..], key)
  }
}
