/** The error taxonomy of `src/utils/errors.ts`: the base `AppError` and its eight subclasses.
    Every error is built once by its constructor and never changed afterwards. */
module Errors {
  import opened Wrappers

  /** Which class an `AppError` was constructed as; `Base` is a direct `new AppError(...)`. */
  datatype ErrorKind =
    | Base
    | Validation
    | Authentication
    | Authorization
    | NotFound
    | Conflict
    | Internal
    | Network
    | ServiceUnavailable

  /** The three fields the base constructor stores, with the class it was built as. */
  datatype AppError = AppError(kind: ErrorKind, statusCode: int, message: string, isOperational: bool)

  /** A thrown value as the middleware sees it: an `AppError`, or any other `Error`
      (for example a `TypeError`, or the CORS rejection), of which only the message matters. */
  datatype Thrown = App(error: AppError) | Plain(message: string)

  /** The status code each subclass passes to `super`. */
  function StatusOf(kind: ErrorKind): (code: int)
    requires kind != Base
    ensures code in {400, 401, 403, 404, 409, 500, 503}
  {
    match kind
    case Validation => 400
    case Authentication => 401
    case Authorization => 403
    case NotFound => 404
    case Conflict => 409
    case Internal => 500
    case Network => 503
    case ServiceUnavailable => 503
  }

  /** Each subclass's default message; `None` for the two whose message is mandatory. */
  function DefaultMessage(kind: ErrorKind): Option<string>
    requires kind != Base
  {
    match kind
    case Validation => None
    case Authentication => Some("Authentication failed")
    case Authorization => Some("Access denied")
    case NotFound => Some("Resource not found")
    case Conflict => None
    case Internal => Some("Internal server error")
    case Network => Some("Network connection failed. Please check your internet connection and try again.")
    case ServiceUnavailable => Some("Service temporarily unavailable")
  }

  /** What every subclass constructor establishes: the status its class fixes, and
      `isOperational` false exactly for `InternalError`. */
  predicate WellFormed(e: AppError) {
    e.kind != Base ==> e.statusCode == StatusOf(e.kind) && e.isOperational == (e.kind != Internal)
  }

  /** `new AppError(statusCode, message, isOperational = true)`. */
  function NewAppError(kind: ErrorKind, statusCode: int, message: string, isOperational: Option<bool>): (e: AppError)
    ensures e.kind == kind && e.statusCode == statusCode && e.message == message
    ensures e.isOperational == (isOperational != Some(false))
  {
    AppError(kind, statusCode, message, isOperational.GetOr(true))
  }

  /** `new ValidationError(message)`: the message is mandatory. */
  function NewValidationError(message: string): (e: AppError)
    ensures e.kind == Validation && e.statusCode == 400 && e.message == message && WellFormed(e)
  {
    NewAppError(Validation, 400, message, None)
  }

  /** `new AuthenticationError(message?)`. */
  function NewAuthenticationError(message: Option<string>): (e: AppError)
    ensures e.kind == Authentication && e.statusCode == 401 && WellFormed(e)
    ensures e.message == message.GetOr("Authentication failed")
  {
    NewAppError(Authentication, 401, message.GetOr("Authentication failed"), None)
  }

  /** `new AuthorizationError(message?)`. */
  function NewAuthorizationError(message: Option<string>): (e: AppError)
    ensures e.kind == Authorization && e.statusCode == 403 && WellFormed(e)
    ensures e.message == message.GetOr("Access denied")
  {
    NewAppError(Authorization, 403, message.GetOr("Access denied"), None)
  }

  /** `new NotFoundError(message?)`. */
  function NewNotFoundError(message: Option<string>): (e: AppError)
    ensures e.kind == NotFound && e.statusCode == 404 && WellFormed(e)
    ensures e.message == message.GetOr("Resource not found")
  {
    NewAppError(NotFound, 404, message.GetOr("Resource not found"), None)
  }

  /** `new ConflictError(message)`: the message is mandatory. */
  function NewConflictError(message: string): (e: AppError)
    ensures e.kind == Conflict && e.statusCode == 409 && e.message == message && WellFormed(e)
  {
    NewAppError(Conflict, 409, message, None)
  }

  /** `new InternalError(message?)`: the one class that passes `isOperational = false`. */
  function NewInternalError(message: Option<string>): (e: AppError)
    ensures e.kind == Internal && e.statusCode == 500 && !e.isOperational && WellFormed(e)
    ensures e.message == message.GetOr("Internal server error")
  {
    NewAppError(Internal, 500, message.GetOr("Internal server error"), Some(false))
  }

  /** `new NetworkError(message?)`. */
  function NewNetworkError(message: Option<string>): (e: AppError)
    ensures e.kind == Network && e.statusCode == 503 && WellFormed(e)
    ensures e.message == message.GetOr("Network connection failed. Please check your internet connection and try again.")
  {
    NewAppError(Network, 503, message.GetOr("Network connection failed. Please check your internet connection and try again."), None)
  }

  /** `new ServiceUnavailableError(message?)`. */
  function NewServiceUnavailableError(message: Option<string>): (e: AppError)
    ensures e.kind == ServiceUnavailable && e.statusCode == 503 && WellFormed(e)
    ensures e.message == message.GetOr("Service temporarily unavailable")
  {
    NewAppError(ServiceUnavailable, 503, message.GetOr("Service temporarily unavailable"), None)
  }

  /** Constructing the error of `kind`: the subclass constructor the source calls. */
  function New(kind: ErrorKind, message: Option<string>): (e: AppError)
    requires kind != Base
    requires DefaultMessage(kind) == None ==> message.Some?
  {
    match kind
    case Validation => NewValidationError(message.value)
    case Authentication => NewAuthenticationError(message)
    case Authorization => NewAuthorizationError(message)
    case NotFound => NewNotFoundError(message)
    case Conflict => NewConflictError(message.value)
    case Internal => NewInternalError(message)
    case Network => NewNetworkError(message)
    case ServiceUnavailable => NewServiceUnavailableError(message)
  }

  /** The taxonomy in one statement: whatever the kind, the constructor fixes the kind's
      status code, keeps a supplied message verbatim, falls back to the kind's default
      message otherwise, and is operational unless it is `InternalError`. */
  lemma TaxonomyTable(kind: ErrorKind, message: Option<string>)
    requires kind != Base
    requires DefaultMessage(kind) == None ==> message.Some?
    ensures New(kind, message).kind == kind
    ensures New(kind, message).statusCode == StatusOf(kind)
    ensures message.Some? ==> New(kind, message).message == message.value
    ensures message.None? ==> New(kind, message).message == DefaultMessage(kind).value
    ensures New(kind, message).isOperational <==> kind != Internal
  {
  }
}
