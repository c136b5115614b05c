/** `errorHandler` of `src/middleware/errorHandler.ts`: the terminal stage that turns any
    thrown value into exactly one error envelope. It looks only at whether the value is an
    `AppError`; there is no timeout or network detection, and `isOperational` is never read.
    `NODE_ENV` is passed in as configuration. */
module ErrorHandler {
  import opened Wrappers
  import opened Errors
  import opened Responses

  const ProductionMessage := "Internal server error"

  /** The (status, message) pair the handler chooses. */
  function Classify(e: Thrown, nodeEnv: string): (r: (int, string))
    ensures e.App? ==> r == (e.error.statusCode, e.error.message)
    ensures e.Plain? ==> r.0 == 500
    ensures e.Plain? && nodeEnv == "production" ==> r.1 == ProductionMessage
    ensures e.Plain? && nodeEnv != "production" ==> r.1 == e.message
  {
    match e
    case App(err) => (err.statusCode, err.message)
    case Plain(m) => (500, if nodeEnv == "production" then ProductionMessage else m)
  }

  /** The envelope sent for `e`: the classified pair, never a `code` or `details`. */
  function HandleError(e: Thrown, nodeEnv: string, timestamp: string): (r: Reply)
    ensures r.status == Classify(e, nodeEnv).0
    ensures r.body.error == Some(ErrorBody(Classify(e, nodeEnv).1, None, None))
    ensures !r.body.success && Exclusive(r.body) && StampedAt(r.body, timestamp)
  {
    var c := Classify(e, nodeEnv);
    SendError(c.0, c.1, None, None, timestamp)
  }

  /** A well-formed taxonomy error reaches the wire with its class's status code. */
  lemma TaxonomyStatusOnWire(kind: ErrorKind, message: Option<string>, nodeEnv: string, timestamp: string)
    requires kind != Base
    requires DefaultMessage(kind) == None ==> message.Some?
    ensures HandleError(App(New(kind, message)), nodeEnv, timestamp).status == StatusOf(kind)
  {
    TaxonomyTable(kind, message);
  }

  /** `isOperational` is not consulted: an `InternalError` carrying a raw message shows it
      even in production. */
  lemma InternalMessageExposed(raw: string)
    ensures Classify(App(NewInternalError(Some(raw))), "production") == (500, raw)
  {
  }

  /** In production an unexpected error never shows its own text. */
  lemma ProductionHidesUnexpected(e: Thrown, timestamp: string)
    requires e.Plain?
    ensures HandleError(e, "production", timestamp).body.error.value.message == ProductionMessage
    ensures HandleError(e, "production", timestamp).status == 500
  {
  }
}
