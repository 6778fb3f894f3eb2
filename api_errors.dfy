/** The error classes of src/lib/utils/errors.ts, a second `AppError` hierarchy independent of
    the one in src/lib/errors/AppError.ts. Here the status code is a constructor argument of
    the base class (default 500) and every subclass also sets a machine-readable `code`. */
module ApiErrors {
  import opened Wrappers
  import opened Text

  datatype ApiKind = Base | Validation(errors: Option<seq<string>>) | NotFound | Duplicate | ExternalService

  datatype ApiError = ApiError(kind: ApiKind, message: string, statusCode: int, code: Option<string>)

  /** `new AppError(message, statusCode = 500, code)`; `None` stands for an omitted argument. */
  function NewAppError(message: string, statusCode: Option<int>, code: Option<string>): (e: ApiError)
    ensures e.kind == Base && e.message == message && e.code == code
    ensures statusCode.None? ==> e.statusCode == 500
    ensures statusCode.Some? ==> e.statusCode == statusCode.value
  {
    ApiError(Base, message, statusCode.GetOr(500), code)
  }

  /** `new ValidationError(message, errors)`. */
  function NewValidationError(message: string, errors: Option<seq<string>>): (e: ApiError)
    ensures e.kind == Validation(errors) && e.message == message
    ensures e.statusCode == 400 && e.code == Some("VALIDATION_ERROR")
  {
    ApiError(Validation(errors), message, 400, Some("VALIDATION_ERROR"))
  }

  /** `new NotFoundError(resource = 'Resource')`. */
  function NewNotFoundError(resource: Option<string>): (e: ApiError)
    ensures e.kind == NotFound && e.statusCode == 404 && e.code == Some("NOT_FOUND")
    ensures e.message == resource.GetOr("Resource") + " not found"
    ensures StartsWith(e.message, resource.GetOr("Resource")) && EndsWith(e.message, " not found")
  {
    var m := resource.GetOr("Resource") + " not found";
    assert m[..|resource.GetOr("Resource")|] == resource.GetOr("Resource");
    assert m[|m| - |" not found"|..] == " not found";
    ApiError(NotFound, m, 404, Some("NOT_FOUND"))
  }

  /** `new DuplicateError(resource = 'Resource')`. */
  function NewDuplicateError(resource: Option<string>): (e: ApiError)
    ensures e.kind == Duplicate && e.statusCode == 409 && e.code == Some("DUPLICATE_ERROR")
    ensures e.message == resource.GetOr("Resource") + " already exists"
    ensures StartsWith(e.message, resource.GetOr("Resource")) && EndsWith(e.message, " already exists")
  {
    var m := resource.GetOr("Resource") + " already exists";
    assert m[..|resource.GetOr("Resource")|] == resource.GetOr("Resource");
    assert m[|m| - |" already exists"|..] == " already exists";
    ApiError(Duplicate, m, 409, Some("DUPLICATE_ERROR"))
  }

  /** `new ExternalServiceError(service, message = 'External service error')`. */
  function NewExternalServiceError(service: string, message: Option<string>): (e: ApiError)
    ensures e.kind == ExternalService && e.statusCode == 502 && e.code == Some("EXTERNAL_SERVICE_ERROR")
    ensures e.message == service + ": " + message.GetOr("External service error")
    ensures StartsWith(e.message, service + ": ")
  {
    var m := service + ": " + message.GetOr("External service error");
    assert m[..|service + ": "|] == service + ": ";
    ApiError(ExternalService, m, 502, Some("EXTERNAL_SERVICE_ERROR"))
  }

  /** The four subclasses have distinct status codes and distinct codes. */
  lemma SubclassCodesDistinct(r1: Option<string>, r2: Option<string>, s: string, m: Option<string>, msg: string, errs: Option<seq<string>>)
    ensures var all := [NewValidationError(msg, errs), NewNotFoundError(r1), NewDuplicateError(r2), NewExternalServiceError(s, m)];
      forall i, j :: 0 <= i < j < |all| ==> all[i].statusCode != all[j].statusCode && all[i].code != all[j].code
  {
  }

  /** The external service's name can be read back from the message when it holds no colon. */
  lemma ExternalServiceNameRecoverable(s1: string, m1: Option<string>, s2: string, m2: Option<string>)
    requires ':' !in s1 && ':' !in s2
    requires NewExternalServiceError(s1, m1).message == NewExternalServiceError(s2, m2).message
    ensures s1 == s2 && m1.GetOr("External service error") == m2.GetOr("External service error")
  {
    var x := NewExternalServiceError(s1, m1).message;
    FirstColon(s1, m1.GetOr("External service error"));
    FirstColon(s2, m2.GetOr("External service error"));
    assert |s1| == |s2|;
    assert s1 == x[..|s1|] == s2;
    assert m1.GetOr("External service error") == x[|s1| + 2..] == m2.GetOr("External service error");
  }

  /** In `service + ": " + rest`, the first colon follows the service name. */
  lemma FirstColon(service: string, rest: string)
    requires ':' !in service
    ensures var x := service + ": " + rest;
      x[|service|] == ':' && forall i :: 0 <= i < |service| ==> x[i] != ':'
  {
    var x := service + ": " + rest;
    forall i | 0 <= i < |service| ensures x[i] != ':' {
      assert x[i] == service[i];
    }
  }
}
