/** `ErrorHandlingMiddleware`: the last Express handler, which turns any error
    passed to `next` into an HTTP response. Its logging is not modelled. */
module ErrorHandling {
  import opened Errors
  import opened ApiErrors

  /** The JSON body `{ error: { message, status, details } }`; an absent
      details key is None. */
  datatype ErrorBody = ErrorBody(message: string, status: int, details: Option<string>)

  datatype Response = Response(status: int, error: ErrorBody)

  /** The response for `err`; `nodeEnv` is the value of NODE_ENV. */
  function Handle(err: Thrown, nodeEnv: string): (r: Response)
    ensures r.error.status == r.status
    ensures err.Api? ==> r.status == err.error.status && r.error.message == err.error.message
    ensures err.Other? ==> r.status == 500 && r.error.message == "Internal Server Error"
    ensures r.error.details.Some? <==> err.Other? && nodeEnv == "development"
    ensures r.error.details.Some? ==> r.error.details.value == err.message
  {
    match err
    case Api(e) => Response(e.status, ErrorBody(e.message, e.status, None))
    case Other(m) =>
      Response(500, ErrorBody("Internal Server Error", 500, if nodeEnv == "development" then Some(m) else None))
  }

  /** An error a controller raised reaches the client with the status of the
      factory it used, or 500 where the factory is missing, and never with
      details, whatever NODE_ENV says. */
  lemma ControllerErrorResponse(kind: ErrorKind, message: string, catchMessage: string, nodeEnv: string)
    ensures var r := Handle(Api(PassedToNext(kind, message, catchMessage)), nodeEnv);
            && r.status == (if kind == BadRequest then 404 else if kind == Forbidden then 403 else 500)
            && r.error.details.None?
            && r.error.message == (if kind in {NotFound, Unauthorized} then catchMessage else message)
  {
    ControllerStatuses(kind, message, catchMessage);
  }

  /** A request whose Unauthorized error is raised outside any controller's
      try block (AuthMiddleware's catch) is answered 500 'Internal Server Error',
      not 401. */
  lemma UnauthorizedOutsideControllerIs500(message: string, nodeEnv: string)
    ensures Handle(Call(Unauthorized, message), nodeEnv).status == 500
    ensures Handle(Call(Unauthorized, message), nodeEnv).error.message == "Internal Server Error"
  {
  }
}
