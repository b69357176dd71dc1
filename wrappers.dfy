/** Option, the exception-or-value outcome of a Kotlin call, and the causes it can carry. */
module Wrappers {

  /** A Kotlin nullable: `None` is `null`. */
  datatype Option<+T> = None | Some(value: T)

  /**
   * What an exception thrown inside the client can be.  The library never
   * classifies them further; the variants only name where a cause came from.
   */
  datatype Cause =
    | MissingField(key: string)       // a required property is absent from a JSON object
    | UnknownKey(key: string)         // an object member is named after no property of the class
    | UnexpectedValue(key: string)    // a property holds JSON of the wrong kind or out of range
    | NumberFormat(input: string)     // `String.toLong()` rejected its input
    | UnexpectedBody                  // the response payload is not of the expected shape
    | TransportFailure(reason: string) // the connection failed (refused, reset, timed out)
    | StatusFailure(status: int)      // a non-2xx status, raised by the response validation

  /** The result of a Kotlin call that may throw: a value, or the exception it threw. */
  datatype Outcome<+T> = Ok(value: T) | Exn(cause: Cause)
}
