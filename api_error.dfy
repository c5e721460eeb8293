/** The error record of `server/error/ApiError.js` and its static factories,
    and what a controller hands to `next` when it asks for one of them. */
module ApiErrors {
  import opened Errors

  /** An ApiError: the constructor keeps its status and its message, nothing else. */
  datatype ApiError = ApiError(status: int, message: string)

  /** A value thrown or passed to `next`: an ApiError, or any other error
      (the TypeError of calling a missing factory, a database error). */
  datatype Thrown = Api(error: ApiError) | Other(message: string)

  /** The static factories ApiError defines, by the error kind they stand for,
      with the status each one builds: badRequest 404, internal 500,
      forbidden 403. There is no notFound and no unauthorized. */
  function FactoryStatus(kind: ErrorKind): Option<int>
  {
    match kind
    case BadRequest => Some(404)
    case Internal => Some(500)
    case Forbidden => Some(403)
    case NotFound => None
    case Unauthorized => None
  }

  function FactoryName(kind: ErrorKind): string
  {
    match kind
    case BadRequest => "badRequest"
    case Internal => "internal"
    case Forbidden => "forbidden"
    case NotFound => "notFound"
    case Unauthorized => "unauthorized"
  }

  /** Evaluating `ApiError.<factory>(message, details)`: the ApiError the
      factory builds (it ignores any details argument), or the TypeError thrown
      because there is no such factory. */
  function Call(kind: ErrorKind, message: string): (t: Thrown)
    ensures t.Api? <==> FactoryStatus(kind).Some?
    ensures t.Api? ==> t.error.message == message && t.error.status == FactoryStatus(kind).value
  {
    match FactoryStatus(kind)
    case Some(status) => Api(ApiError(status, message))
    case None => Other("ApiError." + FactoryName(kind) + " is not a function")
  }

  /** What `next` receives when a controller runs
      `return next(ApiError.<kind>(message))` inside a try block whose catch
      runs `next(ApiError.internal(catchMessage))`: a missing factory throws,
      and the catch turns that into an internal error. */
  function PassedToNext(kind: ErrorKind, message: string, catchMessage: string): (e: ApiError)
    ensures FactoryStatus(kind).Some? ==> e == ApiError(FactoryStatus(kind).value, message)
    ensures FactoryStatus(kind).None? ==> e == ApiError(500, catchMessage)
  {
    match Call(kind, message)
    case Api(e) => e
    case Other(_) => ApiError(500, catchMessage)
  }

  /** Only three factories exist, and they build three different statuses. */
  lemma OnlyThreeFactories(kind: ErrorKind, other: ErrorKind)
    ensures FactoryStatus(kind).Some? <==> kind in {BadRequest, Internal, Forbidden}
    ensures FactoryStatus(kind).Some? && FactoryStatus(kind) == FactoryStatus(other) ==> kind == other
  {
  }

  /** The status a controller's error finally carries, by the kind it asked
      for: a bad request is answered 404, a forbidden one 403, and a request
      for a missing entity or a failed login 500, like an internal error. */
  lemma ControllerStatuses(kind: ErrorKind, message: string, catchMessage: string)
    ensures PassedToNext(kind, message, catchMessage).status
            == match kind
               case BadRequest => 404
               case Forbidden => 403
               case _ => 500
    ensures kind in {NotFound, Unauthorized} ==> PassedToNext(kind, message, catchMessage).message == catchMessage
  {
  }
}
