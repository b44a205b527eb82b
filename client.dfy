/** The outcomes of calls into the device client library, which is not part of this model. */
module Client {

  /** The errors the device client raises. Every kind but ForeignError is a JtechError. */
  datatype ClientError =
    | AuthError          // JtechAuthError: bad credentials
    | ConnectionError    // JtechConnectionError
    | ConnectionTimeout  // JtechConnectionTimeout
    | InvalidSource      // JtechInvalidSource, raised by source validation
    | InvalidOutput      // JtechInvalidOutput, raised by output validation
    | OtherJtechError    // any other JtechError
    | ForeignError       // an exception that is not a JtechError

  predicate IsJtechError(e: ClientError) {
    e != ForeignError
  }

  /** What one awaited client call settled to. */
  datatype Attempt<+T> = Returned(value: T) | Raised(error: ClientError)
}
