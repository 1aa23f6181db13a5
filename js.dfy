/**
 * The JavaScript values the client reads out of parsed JSON, their
 * truthiness, and the abstract outcome of a network call.
 */
module Js {
  import opened Wrappers

  datatype JsVal = Undefined | Null | Bool(b: bool) | Num(n: int) | Str(s: string)

  /** A plain JSON object. */
  type JsObject = map<string, JsVal>

  /** `o.key`: a missing property reads as `undefined`. */
  function Field(o: JsObject, key: string): JsVal {
    if key in o then o[key] else Undefined
  }

  /** JavaScript truthiness. */
  predicate Truthy(v: JsVal) {
    match v
    case Undefined => false
    case Null => false
    case Bool(b) => b
    case Num(n) => n != 0
    case Str(s) => s != ""
  }

  /**
   * The outcome of one HTTP call: the response body on a 2xx status, or a
   * failure carrying the status (None when no response arrived) and the
   * `error` property of the response body, if any.
   */
  datatype Reply<T> = Success(data: T) | Failed(status: Option<int>, error: Option<string>)
  {
    predicate IsUnauthorized() { Failed? && status == Some(401) }
  }

  /** `err.response?.data?.error || fallback` */
  function ErrorText<T>(r: Reply<T>, fallback: string): (msg: string)
    requires r.Failed?
    ensures msg == fallback || (r.error == Some(msg) && msg != "")
    ensures (r.error.None? || r.error == Some("")) ==> msg == fallback
  {
    if r.error.Some? && r.error.value != "" then r.error.value else fallback
  }
}
