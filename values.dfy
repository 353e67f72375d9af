/** Values as the PHP code sees them: nullable strings and amounts, decoded JSON
    bodies, and the string-keyed arrays that builders return. */
module Values {

  datatype Option<T> = None | Some(value: T)

  /** An operation either returns a value or throws an exception. */
  datatype Result<T, E> = Success(value: T) | Failure(error: E)

  /** A response body as `json_decode($body, true)` returns it: JSON objects
      become string-keyed arrays, and a body that does not parse becomes null. */
  datatype Json =
    | JNull
    | JBool(b: bool)
    | JNum(n: real)
    | JStr(s: string)
    | JList(items: seq<Json>)
    | JObject(fields: map<string, Json>)

  /** An ordered PHP array with string keys: a built payload, or the filters a
      caller passes in. */
  type Payload = seq<(string, Json)>

  /** The keys of a payload, in order. */
  function Keys(p: Payload): seq<string>
  {
    seq(|p|, i requires 0 <= i < |p| => p[i].0)
  }

  /** Reading `$v[$key]`: the value stored under `key`, or null (PHP warns and
      yields null) when `v` is null, a scalar, a list, or lacks the key. */
  function Offset(v: Json, key: string): Json
  {
    if v.JObject? && key in v.fields then v.fields[key] else JNull
  }

  /** `$v ?? $fallback`: the fallback replaces a null (or missing) value. */
  function Coalesce(v: Json, fallback: Json): Json
  {
    if v.JNull? then fallback else v
  }

  /** PHP truthiness of a string property that may still be null:
      null, "" and "0" are falsy. */
  predicate Truthy(v: Option<string>)
  {
    v.Some? && v.value != "" && v.value != "0"
  }

  /** PHP truthiness of a float property that may still be null:
      null and 0.0 are falsy, every other number (negative ones too) is truthy. */
  predicate TruthyAmount(v: Option<real>)
  {
    v.Some? && v.value != 0.0
  }

  /** A nullable string property as it appears in a payload. */
  function StringOrNull(v: Option<string>): Json
  {
    if v.Some? then JStr(v.value) else JNull
  }

  /** A nullable float property as it appears in a payload. */
  function AmountOrNull(v: Option<real>): Json
  {
    if v.Some? then JNum(v.value) else JNull
  }
}
