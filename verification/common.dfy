/** The Option and Result wrappers, and the error values the services throw. */
module Common {

  datatype Option<+T> = None | Some(value: T)

  datatype Result<+T, +E> = Success(value: T) | Failure(error: E)

  /** An HttpError of routing-controllers: a status code and a message. */
  datatype HttpError = HttpError(httpCode: int, message: string)

  function BadRequest(message: string): HttpError { HttpError(400, message) }
  function Unauthorized(message: string): HttpError { HttpError(401, message) }
  function NotFound(message: string): HttpError { HttpError(404, message) }

  /**
   * Anything a service can throw: an HttpError, or a plain `Error`
   * (which the error middleware turns into a 500).
   */
  datatype AppError = Http(http: HttpError) | Plain(message: string)
}
