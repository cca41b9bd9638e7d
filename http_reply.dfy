/**
 * What an HTTP handler of the webhook endpoints does with a request: the status and message it
 * writes (http.Error or WriteHeader), if any, and the error it returns to the router, if any.
 */
module HttpReply {
  import opened Wrappers
  import opened GoStrings

  const StatusOK: int := 200
  const StatusAccepted: int := 202
  const StatusNoContent: int := 204
  const StatusFound: int := 302
  const StatusBadRequest: int := 400
  const StatusUnauthorized: int := 401
  const StatusForbidden: int := 403
  const StatusNotFound: int := 404
  const StatusMethodNotAllowed: int := 405
  const StatusGone: int := 410
  const StatusUnprocessableEntity: int := 422
  const StatusInternalServerError: int := 500
  const StatusBadGateway: int := 502
  const StatusServiceUnavailable: int := 503

  datatype Reply = Reply(status: int, message: String)

  datatype HandlerResult = HandlerResult(reply: Option<Reply>, err: Option<String>)

  /** A reply written with a nil error returned. */
  function Respond(status: int, message: String): (r: HandlerResult)
    ensures r.reply == Some(Reply(status, message)) && r.err.None?
  {
    HandlerResult(Some(Reply(status, message)), None)
  }

  /** An error returned with nothing written. */
  function Fail(message: String): (r: HandlerResult)
    ensures r.reply.None? && r.err == Some(message)
  {
    HandlerResult(None, Some(message))
  }
}
