/** Option and Result, the failure-compatible wrappers the rest of the model uses. */
module Wrappers {

  datatype Option<+T> = None | Some(value: T) {
    function GetOr(default: T): T {
      match this
      case Some(v) => v
      case None => default
    }
  }

  datatype Result<+R, +E> = Success(value: R) | Failure(error: E)

  /** JavaScript truthiness of a string that may be undefined or null: present and non-empty. */
  predicate Truthy(s: Option<string>) {
    s.Some? && s.value != ""
  }
}

/** The HTTP answer of a route handler: status code and the message of its JSON body. */
module Http {

  datatype Reply = Reply(code: int, message: string)

  /** express-validator's `validationResult` is not empty: 400 with the error list. */
  const ValidationFailed := Reply(400, "Validation failed")

  /** The generic answer of the handlers' outer `catch` blocks in the auth and profile routes. */
  const ServerError := Reply(500, "Server error")
}
