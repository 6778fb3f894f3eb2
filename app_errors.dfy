/** The application error hierarchy of src/lib/errors/AppError.ts. Every subclass fixes a
    `statusCode` and an `isOperational` flag; some carry an extra field, and some give the
    message a default. The class is the `Kind` of an `AppError` value; `context` is the
    optional record the constructors accept. */
module AppErrors {
  import opened Wrappers

  /** The optional `context` record. */
  type Context = map<string, string>

  datatype Kind =
    | Validation(validationErrors: Option<seq<string>>)
    | NotFound
    | RateLimit(retryAfter: Option<int>)
    | EmailDelivery(emailProvider: Option<string>)
    | DatabaseConnection(provider: Option<string>)
    | TemplateRender(templateName: Option<string>)
    | Authentication
    | Authorization
    | Conflict
    | InternalServer

  datatype AppError = AppError(kind: Kind, message: string, context: Option<Context>)

  /** The `statusCode` each class declares. */
  function StatusCode(k: Kind): (c: int)
    ensures 400 <= c < 600
    ensures c < 500 <==> k.Validation? || k.NotFound? || k.RateLimit? || k.Authentication? || k.Authorization? || k.Conflict?
  {
    match k
    case Validation(_) => 400
    case NotFound => 404
    case RateLimit(_) => 429
    case EmailDelivery(_) => 500
    case DatabaseConnection(_) => 500
    case TemplateRender(_) => 500
    case Authentication => 401
    case Authorization => 403
    case Conflict => 409
    case InternalServer => 500
  }

  /** The `isOperational` flag each class declares. */
  function IsOperational(k: Kind): (b: bool)
    ensures !b <==> k.InternalServer?
  {
    match k
    case InternalServer => false
    case _ => true
  }

  /** The default of the `message` parameter, for the classes whose constructor has one. */
  function DefaultMessage(k: Kind): (m: Option<string>)
    ensures m.Some? <==> k.RateLimit? || k.EmailDelivery? || k.DatabaseConnection? || k.TemplateRender? || k.InternalServer?
  {
    match k
    case RateLimit(_) => Some("Rate limit exceeded")
    case EmailDelivery(_) => Some("Failed to send email")
    case DatabaseConnection(_) => Some("Database connection failed")
    case TemplateRender(_) => Some("Failed to render email template")
    case InternalServer => Some("Internal server error")
    case _ => None
  }

  /** `new <Class>(message, …, context)`; `message` is `None` when the caller passes
      `undefined`, which only the classes with a default allow. */
  function Make(k: Kind, message: Option<string>, context: Option<Context>): (e: AppError)
    requires message.Some? || DefaultMessage(k).Some?
    ensures e.kind == k && e.context == context
    ensures message.Some? ==> e.message == message.value
    ensures message.None? ==> Some(e.message) == DefaultMessage(k)
  {
    AppError(k, if message.Some? then message.value else DefaultMessage(k).value, context)
  }

  /** The client-error classes have pairwise distinct status codes, so a 4xx status names
      its class. */
  lemma ClientStatusNamesClass(a: Kind, b: Kind)
    requires StatusCode(a) == StatusCode(b) < 500
    ensures a.Validation? == b.Validation? && a.NotFound? == b.NotFound? && a.RateLimit? == b.RateLimit?
    ensures a.Authentication? == b.Authentication? && a.Authorization? == b.Authorization? && a.Conflict? == b.Conflict?
  {
  }

  /** Every error with status below 500, and every 500 other than `InternalServerError`,
      is operational: the only non-operational error is a server error. */
  lemma NonOperationalIsServerError(k: Kind)
    ensures !IsOperational(k) ==> StatusCode(k) == 500
    ensures StatusCode(k) < 500 ==> IsOperational(k)
  {
  }
}
