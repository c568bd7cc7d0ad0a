/** Values shared by every module: optional values and flat JSON objects. */
module Json {

  /** A value that may be `undefined`/`null` in the JavaScript source. */
  datatype Option<T> = None | Some(value: T)

  /** The outcome of an operation that may fail with an error value. */
  datatype Result<T, E> = Ok(value: T) | Err(error: E)

  /**
   * A flat JSON object: field name to the field's value, every value taken
   * as a string. A field whose value is `undefined` is absent (`JSON.stringify` drops it).
   */
  type Obj = map<string, string>

  /** `obj.k` as an optional string: absent fields read as `undefined`. */
  function Field(o: Obj, k: string): (r: Option<string>)
    ensures r.Some? <==> k in o
    ensures r.Some? ==> r.value == o[k]
  {
    if k in o then Some(o[k]) else None
  }

  /** JavaScript truthiness of an optional string: `undefined` and `""` are falsy. */
  predicate Truthy(s: Option<string>)
  {
    s.Some? && s.value != ""
  }
}
