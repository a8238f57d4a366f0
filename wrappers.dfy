/** Optional values, the exceptions the services throw, and results that carry them. */
module Wrappers {

  /** A value that may be absent (a Java null or an empty Optional). */
  datatype Option<+T> = None | Some(value: T)

  /** The exception kinds that reach the global exception handler. */
  datatype Exception =
    | ResourceNotFound(message: string)
    | BadRequest(message: string)
    | Unauthorized(message: string)
      /** MethodArgumentNotValidException: the default messages of its binding errors. */
    | MethodArgumentNotValid(errors: seq<string>)
      /** BindException: the default messages of its errors. */
    | BindFailure(errors: seq<string>)
      /** Any other exception (IllegalArgumentException, an index out of bounds, ...). */
    | Other(message: string)

  /** The outcome of a service call: its return value, or the exception it throws. */
  datatype Result<+T> = Ok(value: T) | Err(error: Exception)
}
