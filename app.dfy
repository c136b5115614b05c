/** The two pieces of `src/app.ts` that decide what a request gets back on their own: the CORS
    `origin` callback and the catch-all 404 handler. `NODE_ENV` and `ALLOWED_ORIGINS` are
    configuration passed in; registering middleware on the app is not modelled. */
module App {
  import opened Wrappers
  import opened Strings
  import opened Errors
  import opened Responses
  import opened ErrorHandler

  const NotAllowedMessage := "Not allowed by CORS"
  const RouteNotFoundMessage := "Route not found"

  /** What the `origin` callback reports: `callback(null, true)` or `callback(error)`. */
  datatype CorsDecision = Allow | Deny(error: Thrown)

  /** `ALLOWED_ORIGINS.split(',')`, with no trimming of the entries. */
  function AllowedOrigins(configured: string): (list: seq<string>)
    ensures |list| == Count(configured, ',') + 1
    ensures Join(list, [',']) == configured
  {
    SplitCount(configured, ',');
    SplitJoin(configured, ',');
    Split(configured, ',')
  }

  /** The origin callback. A missing or empty origin is allowed, any origin mentioning
      `localhost` is allowed in development, and otherwise the origin must equal one of the
      configured entries exactly; a refusal is a plain `Error`, not an `AppError`. */
  function CorsOrigin(origin: Option<string>, nodeEnv: string, configured: string): (d: CorsDecision)
    ensures origin.None? || origin == Some("") ==> d == Allow
    ensures origin.Some? && origin.value in AllowedOrigins(configured) ==> d == Allow
    ensures nodeEnv == "development" && origin.Some? && Includes(origin.value, "localhost") ==> d == Allow
    ensures d.Deny? ==> d.error == Plain(NotAllowedMessage)
    ensures d.Deny? <==> origin.Some? && origin.value != "" && origin.value !in AllowedOrigins(configured)
                         && !(nodeEnv == "development" && Includes(origin.value, "localhost"))
  {
    if origin.None? || origin.value == "" then Allow
    else if nodeEnv == "development" && Includes(origin.value, "localhost") then Allow
    else if origin.value in AllowedOrigins(configured) then Allow
    else Deny(Plain(NotAllowedMessage))
  }

  /** With a list of comma-free origins configured, and outside development, an origin is let
      through exactly when it is one of them. */
  lemma OnlyListedOrigins(list: seq<string>, origin: string, nodeEnv: string)
    requires |list| > 0
    requires forall i, k :: 0 <= i < |list| && 0 <= k < |list[i]| ==> list[i][k] != ','
    requires nodeEnv != "development" && origin != ""
    ensures CorsOrigin(Some(origin), nodeEnv, Join(list, [','])) == Allow <==> origin in list
  {
    JoinSplit(list, ',');
  }

  /** The entries are not trimmed: with `"a, b"` configured, origin `"b"` is refused (the entry
      is `" b"`). */
  lemma EntriesNotTrimmed()
    ensures CorsOrigin(Some("b"), "production", "a, b") == Deny(Plain(NotAllowedMessage))
  {
    SplitAfter("a", ',', " b");
    SplitFree(" b", ',');
    assert "a, b" == "a" + [','] + " b";
  }

  /** A refused origin reaches the error handler as a plain error: a 500 whose message is the
      CORS text except in production. */
  lemma RefusedOriginReply(origin: string, nodeEnv: string, configured: string, timestamp: string)
    requires CorsOrigin(Some(origin), nodeEnv, configured).Deny?
    ensures HandleError(CorsOrigin(Some(origin), nodeEnv, configured).error, nodeEnv, timestamp).status == 500
    ensures HandleError(CorsOrigin(Some(origin), nodeEnv, configured).error, nodeEnv, timestamp).body.error
            == Some(ErrorBody(if nodeEnv == "production" then ProductionMessage else NotAllowedMessage, None, None))
  {
  }

  /** The catch-all handler's reply to a request no route matched. */
  function RouteNotFound(): (r: Reply)
    ensures r.status == 404 && !r.body.success
    ensures r.body.error == Some(ErrorBody(RouteNotFoundMessage, None, None))
    ensures r.body.data.None? && r.body.meta.None?
  {
    Reply(404, ApiResponse(false, None, Some(ErrorBody(RouteNotFoundMessage, None, None)), None))
  }

  /** The fallback is not written by `sendError`: unlike every envelope the error handler
      sends, it carries no `meta`, so no thrown error, not even a `NotFoundError`, gives it. */
  lemma FallbackUnlikeErrorHandler(e: Thrown, nodeEnv: string, timestamp: string)
    ensures RouteNotFound() != HandleError(e, nodeEnv, timestamp)
    ensures !StampedAt(RouteNotFound().body, timestamp)
  {
  }
}
