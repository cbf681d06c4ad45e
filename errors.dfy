/**
 * The values the producer service throws. An error has a message and a kind: a plain `Error`,
 * an object carrying a numeric `status` field, or a framework `HttpException` with its status.
 */
module Errors {
  import opened Wrappers

  /** HTTP status codes used by the producer service. */
  const BAD_REQUEST: int := 400
  const NOT_FOUND: int := 404
  const CONFLICT: int := 409

  datatype ErrorKind =
    | Plain              // `new Error(message)`, or a thrown value without a numeric `status`
    | Status(code: int)  // an error object whose `status` field is a number
    | Http(code: int)    // an `HttpException`; its `status` field is its code as well

  datatype Error = Error(kind: ErrorKind, message: string)

  /** The numeric `status` field of an error, when it has one. */
  function StatusOf(e: Error): (s: Option<int>)
    ensures s.Some? <==> !e.kind.Plain?
    ensures e.kind.Status? ==> s == Some(e.kind.code)
    ensures e.kind.Http? ==> s == Some(e.kind.code)
  {
    match e.kind
    case Plain => None
    case Status(code) => Some(code)
    case Http(code) => Some(code)
  }
}
