/**
 * The global exception handler: each exception kind becomes an HTTP status,
 * a stable error code and a message, in a body of exactly four fields.
 * The timestamp is the clock reading, given as `now`.
 */
module ExceptionHandler {
  import opened Wrappers

  const NOT_FOUND := 404
  const BAD_REQUEST := 400
  const UNAUTHORIZED := 401
  const INTERNAL_SERVER_ERROR := 500

  datatype ErrorBody = ErrorBody(timestamp: string, status: int, error: string, message: string)

  datatype ErrorResponse = ErrorResponse(httpStatus: int, body: ErrorBody)

  /** A response whose body repeats the HTTP status. */
  function Build(status: int, error: string, message: string, now: string): (r: ErrorResponse)
    ensures r.httpStatus == status && r.body.status == status
    ensures r.body.error == error && r.body.message == message && r.body.timestamp == now
  {
    ErrorResponse(status, ErrorBody(now, status, error, message))
  }

  /** Validation failures carry at least one error, whose default message is read. */
  predicate Handleable(ex: Exception)
  {
    (ex.MethodArgumentNotValid? || ex.BindFailure?) ==> |ex.errors| > 0
  }

  /** The response for an exception; the most specific handler applies. */
  function Handle(ex: Exception, now: string): (r: ErrorResponse)
    requires Handleable(ex)
    ensures r.body.status == r.httpStatus && r.body.timestamp == now
    ensures ex.ResourceNotFound? ==> r.httpStatus == 404 && r.body.error == "NOT_FOUND" && r.body.message == ex.message
    ensures ex.BadRequest? ==> r.httpStatus == 400 && r.body.error == "BAD_REQUEST" && r.body.message == ex.message
    ensures (ex.MethodArgumentNotValid? || ex.BindFailure?) ==>
              r.httpStatus == 400 && r.body.error == "VALIDATION_ERROR" && r.body.message == ex.errors[0]
    ensures ex.Unauthorized? ==> r.httpStatus == 401 && r.body.error == "UNAUTHORIZED" && r.body.message == ex.message
    ensures ex.Other? ==> r.httpStatus == 500 && r.body.error == "INTERNAL_ERROR" && r.body.message == ex.message
  {
    match ex
    case ResourceNotFound(msg) => Build(NOT_FOUND, "NOT_FOUND", msg, now)
    case BadRequest(msg) => Build(BAD_REQUEST, "BAD_REQUEST", msg, now)
    case MethodArgumentNotValid(errors) => Build(BAD_REQUEST, "VALIDATION_ERROR", errors[0], now)
    case BindFailure(errors) => Build(BAD_REQUEST, "VALIDATION_ERROR", errors[0], now)
    case Unauthorized(msg) => Build(UNAUTHORIZED, "UNAUTHORIZED", msg, now)
    case Other(msg) => Build(INTERNAL_SERVER_ERROR, "INTERNAL_ERROR", msg, now)
  }

  /**
   * The error code alone fixes the HTTP status, so two responses that share a
   * code share a status; and only unclassified exceptions answer 500.
   */
  lemma CodeDeterminesStatus(e1: Exception, e2: Exception, now1: string, now2: string)
    requires Handleable(e1) && Handleable(e2)
    ensures Handle(e1, now1).body.error == Handle(e2, now2).body.error ==>
              Handle(e1, now1).httpStatus == Handle(e2, now2).httpStatus
    ensures Handle(e1, now1).httpStatus == 500 <==> e1.Other?
    ensures 400 <= Handle(e1, now1).httpStatus <= 500
  {
  }
}
