/** The request context one pipeline run owns, and what a middleware stage or a handler
    hands back to Express. */
module Http {
  import opened Wrappers
  import opened Json
  import opened Errors

  /** The two request headers the gates read (Express lower-cases header names). */
  datatype Headers = Headers(authorization: Option<string>, adminKey: Option<string>)

  /** `req.user` as the bearer gate attaches it. */
  datatype Principal = Principal(id: string, email: Option<string>, role: Option<string>)

  /** The parts of an Express request the core reads. Query values and path parameters are
      the strings Express parsed from the URL. */
  datatype Request = Request(
    headers: Headers,
    body: Record,
    query: map<string, string>,
    params: map<string, string>,
    user: Option<Principal>)

  /** How a middleware stage ends: `next()` or `next(error)`. */
  datatype Flow = Proceed | Fail(error: Thrown)

  /** How a route handler ends: `sendSuccess(res, data, status)`, or an error passed to
      `next` from its `catch`. */
  datatype HandlerResult = Respond(status: int, data: Json) | Raise(error: Thrown)

  /** The handler result of throwing `e`. */
  function Throw(e: AppError): (r: HandlerResult)
    ensures r.Raise? && r.error == App(e)
  {
    Raise(App(e))
  }
}
