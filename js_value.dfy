/** The JSON values that pass through the proxy, and the JavaScript
    truthiness that the route handler's `if` tests and `||` chains apply to
    them. */
module JsValue {
  import opened Wrappers

  /** A passthrough JSON payload. The proxy never inspects its shape, except
      for the truthiness test on a cached value. JavaScript numbers are
      modelled as integers. */
  datatype Payload =
    | JNull
    | JBool(b: bool)
    | JNum(n: int)
    | JStr(s: string)
    | JArr(items: seq<Payload>)
    | JObj(fields: seq<(string, Payload)>)

  /** JavaScript truthiness: `null`, `false`, `0` and `""` are falsy; every
      array and every object, even an empty one, is truthy. */
  predicate Truthy(v: Payload)
  {
    match v
    case JNull => false
    case JBool(b) => b
    case JNum(n) => n != 0
    case JStr(s) => s != ""
    case JArr(_) => true
    case JObj(_) => true
  }

  /** Truthiness of a `string | null` (a query value or an environment
      variable): a missing value and the empty string are both absent. */
  predicate Present(v: Option<string>)
  {
    v.Some? && v.value != ""
  }

  /** The `{error: message}` body of every error response. */
  function ErrorBody(message: Payload): Payload
  {
    JObj([("error", message)])
  }
}
