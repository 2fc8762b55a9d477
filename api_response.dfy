/** Response envelopes and the error-code to HTTP-status table (src/lib/api-response.ts).
    The generated request id and the ISO timestamp are parameters; bodies are JSON values,
    with `undefined` fields left out as JSON serialisation does. */
module ApiResponse {
  import opened Wrappers
  import opened Json

  datatype ErrorCode =
    | BadRequest | Unauthorized | Forbidden | NotFound | Conflict | ValidationError
    | RateLimited | PayloadTooLarge | InternalError | DatabaseError
  {
    function Name(): string {
      match this
      case BadRequest => "BAD_REQUEST"
      case Unauthorized => "UNAUTHORIZED"
      case Forbidden => "FORBIDDEN"
      case NotFound => "NOT_FOUND"
      case Conflict => "CONFLICT"
      case ValidationError => "VALIDATION_ERROR"
      case RateLimited => "RATE_LIMITED"
      case PayloadTooLarge => "PAYLOAD_TOO_LARGE"
      case InternalError => "INTERNAL_ERROR"
      case DatabaseError => "DATABASE_ERROR"
    }
  }

  const StatusTable: map<string, int> := map[
    "BAD_REQUEST" := 400, "UNAUTHORIZED" := 401, "FORBIDDEN" := 403, "NOT_FOUND" := 404,
    "CONFLICT" := 409, "VALIDATION_ERROR" := 422, "RATE_LIMITED" := 429,
    "PAYLOAD_TOO_LARGE" := 413, "INTERNAL_ERROR" := 500, "DATABASE_ERROR" := 500]

  /** `getStatusFromCode`: a client-error status for the eight client codes, 500 otherwise
      (including any code the table does not list). */
  function StatusFromCode(code: string): (status: int)
    ensures 400 <= status <= 500
    ensures status == 500 <==>
              code !in {"BAD_REQUEST", "UNAUTHORIZED", "FORBIDDEN", "NOT_FOUND", "CONFLICT",
                        "VALIDATION_ERROR", "RATE_LIMITED", "PAYLOAD_TOO_LARGE"}
  {
    if code in StatusTable then StatusTable[code] else 500
  }

  /** The status of each named code. */
  lemma StatusOfEachCode(c: ErrorCode)
    ensures StatusFromCode(c.Name()) ==
      match c
      case BadRequest => 400
      case Unauthorized => 401
      case Forbidden => 403
      case NotFound => 404
      case Conflict => 409
      case ValidationError => 422
      case RateLimited => 429
      case PayloadTooLarge => 413
      case InternalError => 500
      case DatabaseError => 500
  {
  }

  datatype Response = Response(status: int, headers: map<string, string>, body: Option<Json>)

  /** The `error` object of an error envelope. */
  datatype ErrorBody = ErrorBody(
    code: string, message: string, details: Option<Json>, requestId: string, timestamp: string)

  function EncodeError(e: ErrorBody): Json {
    var fields := map["code" := JStr(e.code), "message" := JStr(e.message),
                      "requestId" := JStr(e.requestId), "timestamp" := JStr(e.timestamp)];
    JObj(map["error" := JObj(if e.details.Some? then fields["details" := e.details.value] else fields)])
  }

  /** Reads an error envelope back (the client's view of it). */
  function DecodeError(j: Json): (r: Option<ErrorBody>)
    ensures r.Some? ==> Member(j, "error").Some?
  {
    var inner := Member(j, "error");
    if inner.None? then None
    else
      var e := inner.value;
      var code := AsString(Member(e, "code"));
      var message := AsString(Member(e, "message"));
      var requestId := AsString(Member(e, "requestId"));
      var timestamp := AsString(Member(e, "timestamp"));
      if code.Some? && message.Some? && requestId.Some? && timestamp.Some? then
        Some(ErrorBody(code.value, message.value, Member(e, "details"), requestId.value, timestamp.value))
      else None
  }

  lemma ErrorEnvelopeRoundTrip(e: ErrorBody)
    ensures DecodeError(EncodeError(e)) == Some(e)
  {
  }

  /** The id a client reads from a body: `error.requestId`, else `meta.requestId`. */
  function EnvelopeRequestId(r: Response): Option<string> {
    if r.body.None? then None
    else if Member(r.body.value, "error").Some? then AsString(Member(Member(r.body.value, "error").value, "requestId"))
    else if Member(r.body.value, "meta").Some? then AsString(Member(Member(r.body.value, "meta").value, "requestId"))
    else None
  }

  function HeaderValue(r: Response, name: string): Option<string> {
    if name in r.headers then Some(r.headers[name]) else None
  }

  /** `errorResponse`: an explicit status wins over the table. */
  function ErrorResponse(code: ErrorCode, message: string, status: Option<int>, details: Option<Json>,
                         requestId: string, timestamp: string): (r: Response)
    ensures r.status == if status.Some? then status.value else StatusFromCode(code.Name())
    ensures r.headers == map["X-Request-ID" := requestId]
    ensures r.body.Some? && DecodeError(r.body.value) == Some(ErrorBody(code.Name(), message, details, requestId, timestamp))
    ensures EnvelopeRequestId(r) == HeaderValue(r, "X-Request-ID") == Some(requestId)
  {
    ErrorEnvelopeRoundTrip(ErrorBody(code.Name(), message, details, requestId, timestamp));
    Response(status.GetOr(StatusFromCode(code.Name())), map["X-Request-ID" := requestId],
             Some(EncodeError(ErrorBody(code.Name(), message, details, requestId, timestamp))))
  }

  /** `successResponse`: `{data, meta: {requestId, timestamp, ...meta}}`, status 200 unless
      given. The caller's meta is spread last, so it can replace the generated id. */
  function SuccessResponse(data: Json, status: Option<int>, meta: map<string, Json>,
                           requestId: string, timestamp: string): (r: Response)
    ensures r.status == status.GetOr(200)
    ensures r.headers == map["X-Request-ID" := requestId]
    ensures r.body.Some? && Member(r.body.value, "data") == Some(data) && Member(r.body.value, "error").None?
    ensures "requestId" !in meta ==> EnvelopeRequestId(r) == HeaderValue(r, "X-Request-ID") == Some(requestId)
  {
    var fullMeta := map["requestId" := JStr(requestId), "timestamp" := JStr(timestamp)] + meta;
    Response(status.GetOr(200), map["X-Request-ID" := requestId],
             Some(JObj(map["data" := data, "meta" := JObj(fullMeta)])))
  }

  datatype PaginationInfo = PaginationInfo(total: Option<int>, limit: int, offset: Option<int>, hasMore: bool)

  function PaginationJson(p: PaginationInfo): Json {
    var fields := map["limit" := JNum(p.limit as real), "hasMore" := JBool(p.hasMore)];
    var withTotal := if p.total.Some? then fields["total" := JNum(p.total.value as real)] else fields;
    JObj(if p.offset.Some? then withTotal["offset" := JNum(p.offset.value as real)] else withTotal)
  }

  /** `listResponse`: status 200 with the page, its pagination and the request id. */
  function ListResponse(data: seq<Json>, pagination: PaginationInfo, requestId: string, timestamp: string): (r: Response)
    ensures r.status == 200
    ensures r.body.Some? && Member(r.body.value, "data") == Some(JArr(data))
    ensures Member(r.body.value, "pagination") == Some(PaginationJson(pagination))
    ensures EnvelopeRequestId(r) == HeaderValue(r, "X-Request-ID") == Some(requestId)
  {
    var meta := map["requestId" := JStr(requestId), "timestamp" := JStr(timestamp)];
    Response(200, map["X-Request-ID" := requestId],
             Some(JObj(map["data" := JArr(data), "pagination" := PaginationJson(pagination), "meta" := JObj(meta)])))
  }

  /** The error code and message a client reads from an error response. */
  function ErrorOf(r: Response): Option<(string, string)> {
    if r.body.None? then None
    else
      var e := DecodeError(r.body.value);
      if e.None? then None else Some((e.value.code, e.value.message))
  }

  function BadRequestResponse(message: string, details: Option<Json>, requestId: string, timestamp: string): (r: Response)
    ensures r.status == 400 && ErrorOf(r) == Some(("BAD_REQUEST", message))
  {
    ErrorResponse(BadRequest, message, None, details, requestId, timestamp)
  }

  function UnauthorizedResponse(message: string, requestId: string, timestamp: string): (r: Response)
    ensures r.status == 401 && ErrorOf(r) == Some(("UNAUTHORIZED", message))
  {
    ErrorResponse(Unauthorized, message, None, None, requestId, timestamp)
  }

  function ForbiddenResponse(message: string, requestId: string, timestamp: string): (r: Response)
    ensures r.status == 403 && ErrorOf(r) == Some(("FORBIDDEN", message))
  {
    ErrorResponse(Forbidden, message, None, None, requestId, timestamp)
  }

  function NotFoundResponse(message: string, requestId: string, timestamp: string): (r: Response)
    ensures r.status == 404 && ErrorOf(r) == Some(("NOT_FOUND", message))
  {
    ErrorResponse(NotFound, message, None, None, requestId, timestamp)
  }

  /** `rateLimited(s)`: 429 with `details.retryAfter = s`. */
  function RateLimitedResponse(retryAfterSeconds: int, requestId: string, timestamp: string): (r: Response)
    ensures r.status == 429 && ErrorOf(r) == Some(("RATE_LIMITED", "Too many requests"))
    ensures r.headers == map["X-Request-ID" := requestId] && "Retry-After" !in r.headers
    ensures r.body.Some? && DecodeError(r.body.value).Some?
    ensures DecodeError(r.body.value).value.details == Some(JObj(map["retryAfter" := JNum(retryAfterSeconds as real)]))
  {
    ErrorResponse(RateLimited, "Too many requests", None,
                  Some(JObj(map["retryAfter" := JNum(retryAfterSeconds as real)])), requestId, timestamp)
  }

  function InternalErrorResponse(message: string, requestId: string, timestamp: string): (r: Response)
    ensures r.status == 500 && ErrorOf(r) == Some(("INTERNAL_ERROR", message))
  {
    ErrorResponse(InternalError, message, None, None, requestId, timestamp)
  }

  function CreatedResponse(data: Json, requestId: string, timestamp: string): (r: Response)
    ensures r.status == 201 && r.body.Some? && Member(r.body.value, "data") == Some(data)
  {
    SuccessResponse(data, Some(201), map[], requestId, timestamp)
  }

  /** `noContent`: 204 with no body and no headers. */
  function NoContentResponse(): (r: Response)
    ensures r.status == 204 && r.body.None? && r.headers == map[]
  {
    Response(204, map[], None)
  }

  /** The backend-error classifier of `handleSupabaseError`. */
  function ClassifySupabaseError(code: Option<string>): (r: (ErrorCode, string))
    ensures code == Some("PGRST116") ==> r == (NotFound, "Resource not found")
    ensures code == Some("23505") ==> r == (Conflict, "Resource already exists")
    ensures code == Some("42501") ==> r == (Forbidden, "Permission denied")
    ensures code !in {Some("PGRST116"), Some("23505"), Some("42501")} ==> r == (DatabaseError, "Database operation failed")
  {
    if code == Some("PGRST116") then (NotFound, "Resource not found")
    else if code == Some("23505") then (Conflict, "Resource already exists")
    else if code == Some("42501") then (Forbidden, "Permission denied")
    else (DatabaseError, "Database operation failed")
  }

  function HandleSupabaseError(code: Option<string>, requestId: string, timestamp: string): (r: Response)
    ensures r.status in {403, 404, 409, 500}
    ensures ErrorOf(r) == Some((ClassifySupabaseError(code).0.Name(), ClassifySupabaseError(code).1))
  {
    var (c, message) := ClassifySupabaseError(code);
    ErrorResponse(c, message, None, None, requestId, timestamp)
  }
}
