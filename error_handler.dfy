/** What a `catch` clause receives: an error of either `AppError` hierarchy, or anything else
    (a plain `Error`, a string). The two hierarchies are unrelated classes, so `instanceof`
    tells them apart. */
module Thrown {
  import AppErrors
  import ApiErrors

  datatype Thrown = Lib(err: AppErrors.AppError) | Api(apiErr: ApiErrors.ApiError) | Other(message: string)
}

/** `ErrorHandler` (src/lib/errors/ErrorHandler.ts): turns a thrown value into an HTTP status
    and a JSON body. Logging is left out. */
module ErrorHandling {
  import opened Wrappers
  import opened AppErrors
  import opened Thrown

  /** `ErrorResponse`; `None` is an absent or `undefined` field. */
  datatype ErrorResponse = ErrorResponse(success: bool, message: string, statusCode: int,
                                         errors: Option<seq<string>>, context: Option<Context>)

  datatype Handled = Handled(status: int, body: ErrorResponse)

  /** `handleError(error)`: an error of the src/lib/errors hierarchy keeps its status, message
      and context, and exposes its `validationErrors` when it has the field; anything else
      becomes a bare 500 "Internal server error". */
  function HandleError(error: Thrown): (r: Handled)
    ensures !r.body.success && r.status == r.body.statusCode
    ensures error.Lib? ==> r.status == StatusCode(error.err.kind) && r.body.message == error.err.message
                           && r.body.context == error.err.context
    ensures error.Lib? && error.err.kind.Validation? ==> r.body.errors == error.err.kind.validationErrors
    ensures r.body.errors.Some? ==> error.Lib? && error.err.kind.Validation?
    ensures !error.Lib? ==> r == Handled(500, ErrorResponse(false, "Internal server error", 500, None, None))
  {
    match error
    case Lib(e) =>
      var errors := if e.kind.Validation? then e.kind.validationErrors else None;
      Handled(StatusCode(e.kind), ErrorResponse(false, e.message, StatusCode(e.kind), errors, e.context))
    case _ =>
      Handled(500, ErrorResponse(false, "Internal server error", 500, None, None))
  }

  /** A response below 500 always comes from an operational error of the src/lib/errors
      hierarchy. */
  lemma ClientStatusFromOperationalError(error: Thrown)
    requires HandleError(error).status < 500
    ensures error.Lib? && IsOperational(error.err.kind)
  {
    NonOperationalIsServerError(error.err.kind);
  }

  /** The generic "Internal server error" message comes exactly from values outside the
      hierarchy, unless an error of the hierarchy carries that very message. */
  lemma GenericResponseForForeignErrors(error: Thrown)
    requires error.Lib? ==> error.err.message != "Internal server error"
    ensures HandleError(error).body.message == "Internal server error" <==> !error.Lib?
  {
  }

  /** `handleAsyncError(operation, context)`: the operation's outcome, passed through
      unchanged: its value on success, the same error rethrown on failure. */
  function HandleAsyncError<T>(outcome: Result<T, Thrown>): (r: Result<T, Thrown>)
    ensures r.Success? <==> outcome.Success?
    ensures r.Success? ==> r.value == outcome.value
    ensures r.Failure? ==> r.error == outcome.error
  {
    match outcome
    case Success(v) => Success(v)
    case Failure(e) => Failure(e)
  }
}

/** `handleApiError` (src/lib/utils/errors.ts). */
module ApiErrorHandling {
  import opened Wrappers
  import opened ApiErrors
  import opened Thrown
  import ErrorHandling

  datatype ApiBody = ApiBody(success: bool, message: string, code: Option<string>, errors: Option<seq<string>>)

  datatype ApiHandled = ApiHandled(status: int, body: ApiBody)

  /** `handleApiError(error)`: an error of the src/lib/utils hierarchy keeps its status,
      message and code, and a `ValidationError` adds its `errors`; anything else, including
      an error of the other hierarchy, is a 500 with code "INTERNAL_ERROR". */
  function HandleApiError(error: Thrown): (r: ApiHandled)
    ensures !r.body.success
    ensures error.Api? ==> r.status == error.apiErr.statusCode && r.body.message == error.apiErr.message
                           && r.body.code == error.apiErr.code
    ensures error.Api? && error.apiErr.kind.Validation? ==> r.body.errors == error.apiErr.kind.errors
    ensures r.body.errors.Some? ==> error.Api? && error.apiErr.kind.Validation?
    ensures !error.Api? ==> r == ApiHandled(500, ApiBody(false, "Internal server error", Some("INTERNAL_ERROR"), None))
  {
    match error
    case Api(e) =>
      var errors := if e.kind.Validation? then e.kind.errors else None;
      ApiHandled(e.statusCode, ApiBody(false, e.message, e.code, errors))
    case _ =>
      ApiHandled(500, ApiBody(false, "Internal server error", Some("INTERNAL_ERROR"), None))
  }

  /** The two hierarchies do not mix: each handler treats the other's errors as unknown, so a
      404 from either hierarchy becomes a 500 in the other handler. */
  lemma HierarchiesDoNotMix(lib: AppErrors.AppError, api: ApiError)
    ensures HandleApiError(Lib(lib)).status == 500
    ensures ErrorHandling.HandleError(Api(api)).status == 500
  {
  }

  /** A subclass error keeps the status its constructor fixed. */
  lemma SubclassStatusKept(resource: Option<string>, service: string, m: Option<string>)
    ensures HandleApiError(Api(NewNotFoundError(resource))).status == 404
    ensures HandleApiError(Api(NewDuplicateError(resource))).status == 409
    ensures HandleApiError(Api(NewExternalServiceError(service, m))).status == 502
    ensures HandleApiError(Api(NewNotFoundError(resource))).body.message == resource.GetOr("Resource") + " not found"
  {
  }
}
