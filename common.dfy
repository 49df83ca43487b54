/** Values shared by the server and the client models. */
module Common {

  /** A JavaScript value that may be `null` or `undefined` (None). */
  datatype Option<T> = None | Some(value: T)

  /** The outcome of a call that may throw: its value, or the error it throws. */
  datatype Result<T, E> = Ok(value: T) | Err(error: E)

  /** JavaScript truthiness of a string-valued field: null, undefined and "" are falsy. */
  predicate Truthy(s: Option<string>) {
    s.Some? && s.value != ""
  }

  /** `response.ok` of the fetch API: the status is in the range 200-299. */
  predicate HttpOk(status: nat) {
    200 <= status <= 299
  }
}
