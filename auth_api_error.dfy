/**
 * The auth service's `ApiError`: a status, a message and a list of arbitrary
 * error items, with two factories.
 */
module AuthErrors {
  import opened Json

  datatype AuthApiError = AuthApiError(status: int, message: string, errors: seq<Json>)

  /** `new ApiError(status, message, errors)` keeps its three arguments verbatim. */
  function NewAuthApiError(status: int, message: string, errors: seq<Json>): (e: AuthApiError)
    ensures e.status == status && e.message == message && e.errors == errors
  {
    AuthApiError(status, message, errors)
  }

  /** `ApiError.UnauthorizedError()`. */
  function UnauthorizedError(): (e: AuthApiError)
    ensures e.status == 401
    ensures e.message == "User doesnt authorized"
    ensures e.errors == [Num(401), Str("Not authorized")]
  {
    NewAuthApiError(401, "User doesnt authorized", [Num(401), Str("Not authorized")])
  }

  /** `ApiError.BadRequest(message, errors = [])`. */
  function BadRequest(message: string, errors: seq<Json> := []): (e: AuthApiError)
    ensures e.status == 400 && e.message == message && e.errors == errors
  {
    NewAuthApiError(400, message, errors)
  }

  /** A bad request built without an error list carries an empty one, and never looks like the unauthorized error. */
  lemma BadRequestDefaults(message: string)
    ensures BadRequest(message).errors == []
    ensures BadRequest(message) != UnauthorizedError()
  {
  }
}
