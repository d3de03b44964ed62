/** Shared value types: optional values and the outcome of a remote call. */
module Outcomes {

  /** A value that may be missing (`null`/`undefined` in the client). */
  datatype Option<+T> = None | Some(value: T)

  /** What an awaited remote call produced: the value it resolved with,
      or the message of the error it threw. */
  datatype Outcome<+T> = Ok(value: T) | Err(message: string)

  /** JavaScript truthiness of an optional string: `null`, `undefined`
      and the empty string are falsy, every other string is truthy. */
  predicate Truthy(v: Option<string>) {
    v.Some? && v.value != ""
  }
}
