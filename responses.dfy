/** The single wire shape of `src/utils/response.ts` and its two constructors. The clock is a
    parameter: `timestamp` is the ISO-8601 text `new Date().toISOString()` would give. */
module Responses {
  import opened Wrappers
  import opened Json

  datatype ErrorBody = ErrorBody(message: string, code: Option<string>, details: Option<Json>)

  datatype Meta = Meta(timestamp: string, requestId: Option<string>)

  /** `ApiResponse`: an absent optional field is `None` (JSON drops `undefined` fields). */
  datatype ApiResponse = ApiResponse(success: bool, data: Option<Json>, error: Option<ErrorBody>, meta: Option<Meta>)

  /** What `res.status(statusCode).json(body)` puts on the wire. */
  datatype Reply = Reply(status: int, body: ApiResponse)

  /** The envelope invariant: exactly one of `data` and `error` is present, and `success`
      says which. */
  predicate Exclusive(b: ApiResponse) {
    (b.success <==> b.data.Some?) && (b.data.Some? <==> b.error.None?)
  }

  /** `meta` is present, stamped with `timestamp`, and carries no request id. */
  predicate StampedAt(b: ApiResponse, timestamp: string) {
    b.meta.Some? && b.meta.value.timestamp == timestamp && b.meta.value.requestId.None?
  }

  /** `sendSuccess(res, data, statusCode = 200, _message?)`. */
  function SendSuccess(data: Json, statusCode: Option<int>, message: Option<string>, timestamp: string): (r: Reply)
    ensures r.status == statusCode.GetOr(200)
    ensures r.body.success && r.body.data == Some(data) && r.body.error.None?
    ensures Exclusive(r.body) && StampedAt(r.body, timestamp)
  {
    Reply(statusCode.GetOr(200), ApiResponse(true, Some(data), None, Some(Meta(timestamp, None))))
  }

  /** The ignored `_message` argument has no effect on what is sent. */
  lemma SuccessIgnoresMessage(data: Json, statusCode: Option<int>, m1: Option<string>, m2: Option<string>, timestamp: string)
    ensures SendSuccess(data, statusCode, m1, timestamp) == SendSuccess(data, statusCode, m2, timestamp)
  {
  }

  /** `sendError(res, statusCode, message, code?, details?)`. */
  function SendError(statusCode: int, message: string, code: Option<string>, details: Option<Json>, timestamp: string): (r: Reply)
    ensures r.status == statusCode
    ensures !r.body.success && r.body.data.None?
    ensures r.body.error == Some(ErrorBody(message, code, details))
    ensures Exclusive(r.body) && StampedAt(r.body, timestamp)
  {
    Reply(statusCode, ApiResponse(false, None, Some(ErrorBody(message, code, details)), Some(Meta(timestamp, None))))
  }

  /** The two constructors never produce the same envelope. */
  lemma SuccessAndErrorDiffer(data: Json, s: Option<int>, m: Option<string>, code: int, message: string,
                              c: Option<string>, d: Option<Json>, t1: string, t2: string)
    ensures SendSuccess(data, s, m, t1).body != SendError(code, message, c, d, t2).body
  {
  }
}
