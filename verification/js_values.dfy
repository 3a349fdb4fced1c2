/** Values as the prompt-stream handler sees them: JSON payloads parsed from a
    request or produced by the model provider, JavaScript truthiness, and the
    return-or-throw outcome of calling into code the handler does not control.
 */
module JsValues {

  /** A field that may be absent (`undefined`) on a JavaScript object. */
  datatype Option<+T> = None | Some(value: T)

  /** The outcome of a call that either returns a value or throws. The thrown
      error itself is only ever logged, so it carries no payload here. */
  datatype Result<+T> = Ok(value: T) | Throws

  /** A JSON value. Numbers are integers; fractional numbers and NaN are not
      modelled. */
  datatype Json =
    | JNull
    | JBool(b: bool)
    | JNum(n: int)
    | JStr(s: string)
    | JArr(elements: seq<Json>)
    | JObj(fields: seq<(string, Json)>)

  /** JavaScript truthiness of a possibly absent JSON value: `undefined`,
      `null`, `false`, `0` and `""` are falsy; every array and object,
      including an empty one, is truthy. */
  predicate Truthy(v: Option<Json>)
  {
    match v
    case None => false
    case Some(JNull) => false
    case Some(JBool(b)) => b
    case Some(JNum(n)) => n != 0
    case Some(JStr(s)) => s != ""
    case Some(JArr(_)) => true
    case Some(JObj(_)) => true
  }
}
