/** Values shared by every part of the shop model: an optional value and the
    outcome of a controller action. */
module Errors {

  datatype Option<T> = None | Some(value: T)

  /** The error categories the controllers ask for when they call
      `ApiError.badRequest`, `ApiError.unauthorized`, `ApiError.forbidden`,
      `ApiError.notFound` or `ApiError.internal`. Whether ApiError actually
      provides that factory is modelled separately, in module ApiErrors. */
  datatype ErrorKind = BadRequest | Unauthorized | Forbidden | NotFound | Internal

  /** What a controller action does with its request: answer with an HTTP
      status and a body, or hand an error of some kind and message to `next`. */
  datatype Result<T> = Ok(status: int, value: T) | Err(kind: ErrorKind, message: string)

  /** How an action ends for the client: with an answer, or with none at all,
      when the action returns an error object instead of passing it to `next`,
      or its catch block itself throws. */
  datatype Reply<T> = Answered(result: Result<T>) | Unanswered
}
