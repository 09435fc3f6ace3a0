/**
 * The main service's `ApiError`: an HTTP status, a message, whether the error
 * is an expected ("operational") one, and optional details. Its fields are
 * read-only once built, which a datatype value gives for free.
 */
module ApiErrors {
  import opened Wrappers

  /** `details?: any` is carried as an optional text. */
  datatype ApiError = ApiError(statusCode: int, message: string, isOperational: bool, details: Option<string>)

  /** `new ApiError(statusCode, message, isOperational = true, details?)`. */
  function NewApiError(statusCode: int, message: string, isOperational: bool := true, details: Option<string> := None): (e: ApiError)
    ensures e.statusCode == statusCode && e.message == message
    ensures e.isOperational == isOperational && e.details == details
  {
    ApiError(statusCode, message, isOperational, details)
  }

  /** `ApiError.badRequest(message, details?)`. */
  function BadRequest(message: string, details: Option<string> := None): (e: ApiError)
    ensures e.statusCode == 400 && e.isOperational
    ensures e.message == message && e.details == details
  {
    NewApiError(400, message, true, details)
  }

  /** `ApiError.unauthorized(message = 'Unauthorized')`. */
  function Unauthorized(message: string := "Unauthorized"): (e: ApiError)
    ensures e.statusCode == 401 && e.isOperational && e.details.None?
    ensures e.message == message
  {
    NewApiError(401, message)
  }

  /** `ApiError.forbidden(message = 'Forbidden')`. */
  function Forbidden(message: string := "Forbidden"): (e: ApiError)
    ensures e.statusCode == 403 && e.isOperational && e.details.None?
    ensures e.message == message
  {
    NewApiError(403, message)
  }

  /** `ApiError.notFound(message = 'Not Found')`. */
  function NotFound(message: string := "Not Found"): (e: ApiError)
    ensures e.statusCode == 404 && e.isOperational && e.details.None?
    ensures e.message == message
  {
    NewApiError(404, message)
  }

  /** `ApiError.internal(message = 'Internal Server Error', details?)`: the one factory that marks its error as not operational. */
  function Internal(message: string := "Internal Server Error", details: Option<string> := None): (e: ApiError)
    ensures e.statusCode == 500 && !e.isOperational
    ensures e.message == message && e.details == details
  {
    NewApiError(500, message, false, details)
  }

  /** The factories' defaults: calling one without a message gives its standard reason phrase. */
  lemma FactoryDefaults()
    ensures Unauthorized() == ApiError(401, "Unauthorized", true, None)
    ensures Forbidden() == ApiError(403, "Forbidden", true, None)
    ensures NotFound() == ApiError(404, "Not Found", true, None)
    ensures Internal() == ApiError(500, "Internal Server Error", false, None)
  {
  }

  /** Among the factories' results, exactly the client errors (4xx) are operational. */
  lemma FactoriesOperationalIffClientError(message: string, details: Option<string>)
    ensures forall e | e in {BadRequest(message, details), Unauthorized(message), Forbidden(message), NotFound(message), Internal(message, details)} ::
              e.isOperational <==> 400 <= e.statusCode < 500
  {
  }
}
