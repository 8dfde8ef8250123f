/**
 * JSON documents as Python's `json` module produces them (integers only),
 * with the Python operations the core applies to them: truthiness,
 * subscripting by a string key, and the `in` test for a string key.
 */
module Json {
  import opened Wrappers

  datatype Json =
    | JNull
    | JBool(b: bool)
    | JNum(n: int)
    | JStr(s: string)
    | JArr(items: seq<Json>)
    | JObj(fields: map<string, Json>)

  /**
   * Why a lookup raised: `value[key]` is a KeyError for an object without the
   * key and a TypeError for any other value; `key in value` is a TypeError for
   * a value that is not a container.
   */
  datatype LookupFailure = KeyMissing(key: string) | NotAnObject(value: Json) | NotAContainer(value: Json)

  /** Python truthiness of a decoded JSON value. */
  predicate Truthy(j: Json) {
    match j
    case JNull => false
    case JBool(b) => b
    case JNum(n) => n != 0
    case JStr(s) => s != []
    case JArr(items) => items != []
    case JObj(fields) => fields != map[]
  }

  /** `value[key]` for a string key. */
  function Subscript(value: Json, key: string): (r: Result<Json, LookupFailure>)
    ensures r.Ok? <==> value.JObj? && key in value.fields
    ensures r.Ok? ==> r.value == value.fields[key]
    ensures r.Err? && value.JObj? ==> r.error == KeyMissing(key)
    ensures r.Err? && !value.JObj? ==> r.error == NotAnObject(value)
  {
    match value
    case JObj(fields) => if key in fields then Ok(fields[key]) else Err(KeyMissing(key))
    case _ => Err(NotAnObject(value))
  }

  /** `key` occurs in `s` as a contiguous piece. */
  predicate Occurs(key: string, s: string)
    decreases |s|
  {
    |key| <= |s| && (s[..|key|] == key || (s != [] && Occurs(key, s[1..])))
  }

  /**
   * Python's `key in value` for a string key: a key of an object, an element
   * of a list, a substring of a string; numbers, booleans and None raise.
   */
  function Contains(value: Json, key: string): (r: Result<bool, LookupFailure>)
    ensures r.Err? <==> value.JNull? || value.JBool? || value.JNum?
    ensures r.Err? ==> r.error == NotAContainer(value)
    ensures value.JObj? ==> (r == Ok(true) <==> Subscript(value, key).Ok?)
    ensures value.JArr? ==> (r == Ok(true) <==> exists i :: 0 <= i < |value.items| && value.items[i] == JStr(key))
  {
    match value
    case JObj(fields) => Ok(key in fields)
    case JArr(xs) => Ok(JStr(key) in xs)
    case JStr(s) => Ok(Occurs(key, s))
    case _ => Err(NotAContainer(value))
  }
}
