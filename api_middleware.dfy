/** The gateway pipeline of `createApiHandler` (src/lib/api-middleware.ts): preflight,
    authentication, scopes, rate limiting, body validation, pagination, the route's handler
    and header attachment, in that order. The handler is a function from the assembled context
    to a response (None when it throws); the body schema is a function from JSON to a parse
    result; the hash, the key table, whether the key lookup fails and date parsing come in a
    `Backend`. */
module ApiMiddleware {
  import opened Wrappers
  import opened Strings
  import opened Json
  import opened ApiScopes
  import opened ApiKeys
  import opened ApiResponse
  import opened RateLimit

  datatype Issue = Issue(path: seq<string>, message: string)

  /** What a schema's `safeParse` reports. */
  datatype SchemaResult = Parsed(data: Json) | Rejected(issues: seq<Issue>)

  datatype HandlerOptions = HandlerOptions(
    scopes: Option<seq<string>>,
    bodySchema: Option<Json -> SchemaResult>,
    pagination: bool,
    rateLimitTier: Option<string>)

  /** The parts of a request the pipeline reads. `body` is None when it is not valid JSON;
      `limitParam`/`offsetParam` are None when the query value is absent or empty. */
  datatype Request = Request(
    verb: string, headers: map<string, string>, body: Option<Json>,
    limitParam: Option<int>, offsetParam: Option<int>)

  datatype Backend = Backend(
    hashApiKey: string -> string, keys: seq<StoredKey>, keyLookupFails: bool, toEpoch: string -> Option<int>)

  /** The pipeline's own request id, the id each envelope helper generates, and the clock
      as ISO text. */
  datatype Ids = Ids(requestId: string, envelopeId: string, timestamp: string)

  datatype Pagination = Pagination(limit: int, offset: int)

  datatype Context = Context(
    requestId: string, userId: string, scopes: seq<string>, apiKey: StoredKey,
    body: Option<Json>, pagination: Option<Pagination>)

  // ---------------------------------------------------------------------------
  // Pure stages
  // ---------------------------------------------------------------------------

  const WindowMs: int := 60_000
  const StandardLimiter: RateLimitConfig := RateLimitConfig(60, WindowMs, Some("api:std"))
  const PremiumLimiter: RateLimitConfig := RateLimitConfig(200, WindowMs, Some("api:pre"))
  const IngestionLimiter: RateLimitConfig := RateLimitConfig(200, WindowMs, Some("api:ing"))

  /** `options.rateLimitTier || key.rate_limit_tier || "standard"` (an empty string is falsy). */
  function ResolveTier(routeTier: Option<string>, keyTier: string): (t: string)
    ensures routeTier.Some? && routeTier.value != "" ==> t == routeTier.value
    ensures (routeTier.None? || routeTier.value == "") && keyTier != "" ==> t == keyTier
    ensures (routeTier.None? || routeTier.value == "") && keyTier == "" ==> t == "standard"
  {
    if routeTier.Some? && routeTier.value != "" then routeTier.value
    else if keyTier != "" then keyTier
    else "standard"
  }

  /** The properties every plain JavaScript object inherits from `Object.prototype`. As a
      tier they make `apiKeyRateLimiters[tier]` a truthy value that is not a limiter. */
  const InheritedNames: set<string> := {
    "constructor", "__proto__", "hasOwnProperty", "isPrototypeOf", "propertyIsEnumerable",
    "toString", "toLocaleString", "valueOf",
    "__defineGetter__", "__defineSetter__", "__lookupGetter__", "__lookupSetter__"}

  /** `apiKeyRateLimiters[tier] || apiKeyRateLimiters.standard`: the limiter of a tier, the
      standard one for a tier the table does not name, and None when the lookup finds an
      inherited property, whose `.check` is not a function. */
  function TierLimiter(tier: string): (c: Option<RateLimitConfig>)
    ensures tier == "premium" ==> c == Some(PremiumLimiter)
    ensures tier == "ingestion" ==> c == Some(IngestionLimiter)
    ensures tier in InheritedNames ==> c.None?
    ensures tier != "premium" && tier != "ingestion" && tier !in InheritedNames ==> c == Some(StandardLimiter)
    ensures c.Some? ==> c.value.windowMs == WindowMs && c.value.prefix.Some? && |c.value.prefix.value| == 7
  {
    if tier == "premium" then Some(PremiumLimiter)
    else if tier == "ingestion" then Some(IngestionLimiter)
    else if tier in InheritedNames then None
    else Some(StandardLimiter)
  }

  /** The per-minute budgets of the limiter table agree with RATE_LIMIT_TIERS. */
  lemma LimiterTableMatchesTiers(tier: string)
    requires RateLimitTier(tier).Some?
    ensures TierLimiter(tier).Some? && TierLimiter(tier).value.limit == RateLimitTier(tier).value.requestsPerMinute
  {
  }

  /** The three limiters never share a counter, whatever the identifiers. */
  lemma TierLimitersSeparate(t1: string, t2: string, id1: string, id2: string)
    requires TierLimiter(t1).Some? && TierLimiter(t2).Some? && TierLimiter(t1) != TierLimiter(t2)
    ensures Key(TierLimiter(t1).value.prefix.value, id1) != Key(TierLimiter(t2).value.prefix.value, id2)
  {
    KeysSeparate(TierLimiter(t1).value.prefix.value, id1, TierLimiter(t2).value.prefix.value, id2);
  }

  /** `validation.key?.id || getClientIdentifier(request)`. */
  function Identifier(key: StoredKey, headers: map<string, string>): (id: string)
    ensures key.id != "" ==> id == key.id
    ensures key.id == "" ==> id == ClientIdentifierOf(headers)
  {
    if key.id != "" then key.id else ClientIdentifierOf(headers)
  }

  /** `min(parseInt(limit || "50"), 200)` and `parseInt(offset || "0")` on numeric inputs. */
  function ParsePagination(limitParam: Option<int>, offsetParam: Option<int>): (p: Pagination)
    ensures p.limit <= 200
    ensures p.limit == 200 || p.limit == limitParam.GetOr(50)
    ensures limitParam.GetOr(50) <= 200 ==> p.limit == limitParam.GetOr(50)
    ensures p.offset == offsetParam.GetOr(0)
  {
    var requested := limitParam.GetOr(50);
    Pagination(if requested < 200 then requested else 200, offsetParam.GetOr(0))
  }

  /** `issues.map(i => path.join(".") + ": " + message).join("; ")`. */
  function IssueText(i: Issue): string {
    Join(i.path, ".") + ": " + i.message
  }

  function IssuesMessage(issues: seq<Issue>): string
    decreases |issues|
  {
    if |issues| == 0 then ""
    else if |issues| == 1 then IssueText(issues[0])
    else IssueText(issues[0]) + "; " + IssuesMessage(issues[1..])
  }

  predicate HasBody(verb: string) {
    verb in ["POST", "PUT", "PATCH"]
  }

  /** The preflight answer: 204 with permissive CORS headers and no body. */
  function PreflightResponse(): (r: Response)
    ensures r.status == 204 && r.body.None?
    ensures "Access-Control-Allow-Origin" in r.headers && HeaderValue(r, "Access-Control-Allow-Origin") == Some("*")
  {
    Response(204, map[
      "Access-Control-Allow-Origin" := "*",
      "Access-Control-Allow-Methods" := "GET, POST, PUT, DELETE, OPTIONS",
      "Access-Control-Allow-Headers" := "Content-Type, X-API-Key",
      "Access-Control-Max-Age" := "86400"], None)
  }

  /** `response.headers.set(k, v)` for each pair in turn. */
  function SetHeaders(h: map<string, string>, pairs: seq<(string, string)>): map<string, string>
    decreases |pairs|
  {
    if |pairs| == 0 then h
    else
      var last := pairs[|pairs| - 1];
      SetHeaders(h, pairs[..|pairs| - 1])[last.0 := last.1]
  }

  /** A pair whose name no later pair repeats decides that header. */
  lemma {:induction false} SetHeadersLastWins(h: map<string, string>, pairs: seq<(string, string)>, i: nat)
    requires i < |pairs|
    requires forall j :: i < j < |pairs| ==> pairs[j].0 != pairs[i].0
    ensures pairs[i].0 in SetHeaders(h, pairs) && SetHeaders(h, pairs)[pairs[i].0] == pairs[i].1
    decreases |pairs|
  {
    if i < |pairs| - 1 {
      SetHeadersLastWins(h, pairs[..|pairs| - 1], i);
    }
  }

  /** Headers the list does not name keep their old value. */
  lemma {:induction false} SetHeadersKeepsOthers(h: map<string, string>, pairs: seq<(string, string)>, k: string)
    requires forall i :: 0 <= i < |pairs| ==> pairs[i].0 != k
    ensures (k in SetHeaders(h, pairs) <==> k in h) && (k in h ==> SetHeaders(h, pairs)[k] == h[k])
    decreases |pairs|
  {
    if |pairs| > 0 {
      SetHeadersKeepsOthers(h, pairs[..|pairs| - 1], k);
    }
  }

  method ApplyHeaders(h: map<string, string>, pairs: seq<(string, string)>) returns (r: map<string, string>)
    ensures r == SetHeaders(h, pairs)
  {
    r := h;
    var i := 0;
    while i < |pairs|
      invariant 0 <= i <= |pairs|
      invariant r == SetHeaders(h, pairs[..i])
    {
      assert pairs[..i + 1][..i] == pairs[..i];
      r := r[pairs[i].0 := pairs[i].1];
      i := i + 1;
    }
    assert pairs[..|pairs|] == pairs;
  }

  /** The headers added to a handled response. */
  function ResponseHeaders(requestId: string, rl: RateLimitResult): seq<(string, string)> {
    [("X-Request-ID", requestId), ("Access-Control-Allow-Origin", "*")] + RateLimitHeaders(rl)
  }

  datatype Outcome = Outcome(response: Response, store: map<string, Entry>)

  /** The key record and scopes of an accepted request. */
  function ContextFor(ids: Ids, v: Validation): Context
    requires v.Valid?
  {
    Context(ids.requestId, v.userId, v.scopes, v.key, None, None)
  }

  /** The body the handler's context carries: the schema's output on a write request that
      the schema accepts, and none otherwise. */
  function ParsedBody(options: HandlerOptions, request: Request): Option<Json> {
    if options.bodySchema.Some? && HasBody(request.verb) && request.body.Some?
       && options.bodySchema.value(request.body.value).Parsed?
    then Some(options.bodySchema.value(request.body.value).data)
    else None
  }

  /** The context the handler is called with. */
  function HandlerContext(options: HandlerOptions, request: Request, v: Validation, ids: Ids): Context
    requires v.Valid?
  {
    ContextFor(ids, v).(body := ParsedBody(options, request),
                        pagination := if options.pagination then Some(ParsePagination(request.limitParam, request.offsetParam)) else None)
  }

  /** Stages after a passed rate-limit check: body, pagination, handler, headers. The body
      stage answers 500 for a body that is not JSON and 400 for one the schema rejects;
      otherwise the handler decides the status and the body, and a throwing handler gives
      500. */
  function AfterLimiter(options: HandlerOptions, request: Request, v: Validation,
                        handler: Context -> Option<Response>, rl: RateLimitResult, ids: Ids): (r: Response)
    requires v.Valid?
    ensures options.bodySchema.Some? && HasBody(request.verb) && request.body.None? ==> r.status == 500
    ensures (options.bodySchema.Some? && HasBody(request.verb) && request.body.Some? &&
             options.bodySchema.value(request.body.value).Rejected?) ==> r.status == 400
    ensures var c := HandlerContext(options, request, v, ids);
            (!(options.bodySchema.Some? && HasBody(request.verb)) || ParsedBody(options, request).Some?) ==>
              (handler(c).None? ==> r.status == 500) &&
              (handler(c).Some? ==> r.status == handler(c).value.status && r.body == handler(c).value.body)
  {
    var ctx := ContextFor(ids, v);
    var parsed :=
      if options.bodySchema.Some? && HasBody(request.verb) then
        (if request.body.None? then None else Some(options.bodySchema.value(request.body.value)))
      else Some(Parsed(JNull));
    if parsed.None? then InternalErrorResponse("Internal server error", ids.envelopeId, ids.timestamp)
    else if parsed.value.Rejected? then
      BadRequestResponse(IssuesMessage(parsed.value.issues), None, ids.envelopeId, ids.timestamp)
    else
      var ctx1 := if options.bodySchema.Some? && HasBody(request.verb) then ctx.(body := Some(parsed.value.data)) else ctx;
      var ctx2 := if options.pagination then ctx1.(pagination := Some(ParsePagination(request.limitParam, request.offsetParam))) else ctx1;
      var handled := handler(ctx2);
      if handled.None? then InternalErrorResponse("Internal server error", ids.envelopeId, ids.timestamp)
      else handled.value.(headers := SetHeaders(handled.value.headers, ResponseHeaders(ids.requestId, rl)))
  }

  function ApiKeyHeader(request: Request): Option<string> {
    if "x-api-key" in request.headers then Some(request.headers["x-api-key"]) else None
  }

  /** The scope stage's refusal, if any: scopes are checked only when the route lists some. */
  function ScopeError(options: HandlerOptions, v: Validation): (e: Option<string>)
    requires v.Valid?
    ensures e.Some? <==> options.scopes.Some? && |options.scopes.value| > 0 && !HasRequiredScopes(v.scopes, options.scopes.value)
  {
    if options.scopes.Some? && |options.scopes.value| > 0 then RequireScopes(Some(v.scopes), options.scopes.value)
    else None
  }

  /** The limiter and the counter key of an accepted request. */
  function LimiterOf(options: HandlerOptions, v: Validation): Option<RateLimitConfig>
    requires v.Valid?
  {
    TierLimiter(ResolveTier(options.rateLimitTier, v.key.rateLimitTier))
  }

  function CounterKey(options: HandlerOptions, v: Validation, request: Request): string
    requires v.Valid? && LimiterOf(options, v).Some?
  {
    Key(LimiterOf(options, v).value.prefix.value, Identifier(v.key, request.headers))
  }

  /** The counter key and the limiter a request is counted under, or None when the pipeline
      answers before the limiter counts (preflight, refused key, missing scopes, a tier that
      names no limiter). */
  function Counted(options: HandlerOptions, request: Request, backend: Backend, now: int): Option<(string, RateLimitConfig)> {
    if request.verb == "OPTIONS" then None
    else
      var v := ValidateApiKey(ApiKeyHeader(request), backend.hashApiKey, backend.keys, backend.keyLookupFails, backend.toEpoch, now);
      if v.Invalid? || ScopeError(options, v).Some? || LimiterOf(options, v).None? then None
      else Some((CounterKey(options, v, request), LimiterOf(options, v).value))
  }

  /** The whole pipeline: the response and the limiter store after one request. `now` is
      the clock the key validation reads, `clock` the three reads of the limiter's `check`.
      At most the request's own counter moves, by one `increment`, and a request over its
      limit gets 429. */
  function Pipeline(options: HandlerOptions, request: Request, backend: Backend,
                    handler: Context -> Option<Response>, ids: Ids, now: int, clock: Clock,
                    store: map<string, Entry>): (o: Outcome)
    ensures Counted(options, request, backend, now).None? ==> o.store == store
    ensures Counted(options, request, backend, now).Some? ==>
              var (key, limiter) := Counted(options, request, backend, now).value;
              o.store == store[key := Incremented(store, key, limiter.windowMs, clock.increment, clock.get)] &&
              (!CheckResult(limiter.limit, o.store[key], clock.check).success ==> o.response.status == 429)
  {
    if request.verb == "OPTIONS" then Outcome(PreflightResponse(), store)
    else
      var v := ValidateApiKey(ApiKeyHeader(request), backend.hashApiKey, backend.keys, backend.keyLookupFails, backend.toEpoch, now);
      if v.Invalid? then
        Outcome(UnauthorizedResponse(if v.error != "" then v.error else "Invalid API key", ids.envelopeId, ids.timestamp), store)
      else if ScopeError(options, v).Some? then
        Outcome(ForbiddenResponse(ScopeError(options, v).value, ids.envelopeId, ids.timestamp), store)
      else
        var limiter := LimiterOf(options, v);
        if limiter.None? then Outcome(InternalErrorResponse("Internal server error", ids.envelopeId, ids.timestamp), store)
        else
        var key := CounterKey(options, v, request);
        var e := Incremented(store, key, limiter.value.windowMs, clock.increment, clock.get);
        var rl := CheckResult(limiter.value.limit, e, clock.check);
        var store1 := store[key := e];
        if !rl.success then Outcome(RateLimitedResponse(CeilSeconds(rl.retryAfter), ids.envelopeId, ids.timestamp), store1)
        else Outcome(AfterLimiter(options, request, v, handler, rl, ids), store1)
  }

  // ---------------------------------------------------------------------------
  // Properties of the stage order
  // ---------------------------------------------------------------------------

  /** A preflight is answered before authentication and counts against no limiter. */
  lemma PreflightFirst(options: HandlerOptions, request: Request, backend: Backend,
                       handler: Context -> Option<Response>, ids: Ids, now: int, clock: Clock, store: map<string, Entry>)
    requires request.verb == "OPTIONS"
    ensures Pipeline(options, request, backend, handler, ids, now, clock, store) == Outcome(PreflightResponse(), store)
  {
  }

  /** A refused key gets 401 with the validator's message, and no counter moves. */
  lemma UnauthenticatedTouchesNoCounter(options: HandlerOptions, request: Request, backend: Backend,
                                        handler: Context -> Option<Response>, ids: Ids, now: int, clock: Clock, store: map<string, Entry>)
    requires request.verb != "OPTIONS"
    requires ValidateApiKey(ApiKeyHeader(request), backend.hashApiKey, backend.keys, backend.keyLookupFails, backend.toEpoch, now).Invalid?
    ensures var o := Pipeline(options, request, backend, handler, ids, now, clock, store);
            var v := ValidateApiKey(ApiKeyHeader(request), backend.hashApiKey, backend.keys, backend.keyLookupFails, backend.toEpoch, now);
            o.store == store && o.response.status == 401 && ErrorOf(o.response) == Some(("UNAUTHORIZED", v.error))
  {
  }

  /** Missing scopes give 403 before the rate-limit stage, so no slot is consumed. */
  lemma ScopeFailureTouchesNoCounter(options: HandlerOptions, request: Request, backend: Backend,
                                     handler: Context -> Option<Response>, ids: Ids, now: int, clock: Clock, store: map<string, Entry>)
    requires request.verb != "OPTIONS"
    requires var v := ValidateApiKey(ApiKeyHeader(request), backend.hashApiKey, backend.keys, backend.keyLookupFails, backend.toEpoch, now);
             v.Valid? && options.scopes.Some? && |options.scopes.value| > 0 && !HasRequiredScopes(v.scopes, options.scopes.value)
    ensures var o := Pipeline(options, request, backend, handler, ids, now, clock, store);
            o.store == store && o.response.status == 403
  {
  }

  /** A request that passes authentication and scopes counts exactly once, under its own key;
      no other counter changes. A tier naming an inherited property makes the limiter throw
      before it counts, which gives 500. */
  lemma OneCounterPerRequest(options: HandlerOptions, request: Request, backend: Backend,
                             handler: Context -> Option<Response>, ids: Ids, now: int, clock: Clock,
                             store: map<string, Entry>)
    requires request.verb != "OPTIONS"
    requires var v := ValidateApiKey(ApiKeyHeader(request), backend.hashApiKey, backend.keys, backend.keyLookupFails, backend.toEpoch, now);
             v.Valid? && ScopeError(options, v).None?
    ensures var v := ValidateApiKey(ApiKeyHeader(request), backend.hashApiKey, backend.keys, backend.keyLookupFails, backend.toEpoch, now);
            var o := Pipeline(options, request, backend, handler, ids, now, clock, store);
            LimiterOf(options, v).None? ==>
              o.store == store && o.response == InternalErrorResponse("Internal server error", ids.envelopeId, ids.timestamp)
    ensures var v := ValidateApiKey(ApiKeyHeader(request), backend.hashApiKey, backend.keys, backend.keyLookupFails, backend.toEpoch, now);
            var o := Pipeline(options, request, backend, handler, ids, now, clock, store);
            LimiterOf(options, v).Some? ==>
              var key := CounterKey(options, v, request);
              o.store == store[key := Incremented(store, key, LimiterOf(options, v).value.windowMs, clock.increment, clock.get)]
              && var rl := CheckResult(LimiterOf(options, v).value.limit, o.store[key], clock.check);
              (!rl.success ==> o.response == RateLimitedResponse(CeilSeconds(rl.retryAfter), ids.envelopeId, ids.timestamp))
              && (rl.success ==> o.response == AfterLimiter(options, request, v, handler, rl, ids))
  {
  }

  /** The body schema is consulted only for POST, PUT and PATCH. */
  lemma SchemaOnlyForWriteMethods(options: HandlerOptions, request: Request, backend: Backend,
                                  handler: Context -> Option<Response>, ids: Ids, now: int, clock: Clock, store: map<string, Entry>)
    requires !HasBody(request.verb)
    ensures Pipeline(options, request, backend, handler, ids, now, clock, store)
            == Pipeline(options.(bodySchema := None), request, backend, handler, ids, now, clock, store)
  {
  }

  /** A body the schema rejects gets 400 with the joined issue text. */
  lemma SchemaRejectionIs400(options: HandlerOptions, request: Request, v: Validation,
                             handler: Context -> Option<Response>, rl: RateLimitResult, ids: Ids)
    requires v.Valid? && options.bodySchema.Some? && HasBody(request.verb) && request.body.Some?
    requires options.bodySchema.value(request.body.value).Rejected?
    ensures var r := AfterLimiter(options, request, v, handler, rl, ids);
            r.status == 400 &&
            ErrorOf(r) == Some(("BAD_REQUEST", IssuesMessage(options.bodySchema.value(request.body.value).issues)))
  {
  }

  /** A write request whose body is not JSON gives 500 (`request.json()` throws). Once the
      body stage passes, a handled response keeps its status and body and carries the
      pipeline's request id, the CORS header and the rate-limit headers; a throwing handler
      gives 500. */
  lemma HandledResponseHeaders(options: HandlerOptions, request: Request, v: Validation,
                               handler: Context -> Option<Response>, rl: RateLimitResult, ids: Ids, c: Context)
    requires v.Valid?
    requires c == HandlerContext(options, request, v, ids)
    ensures var r := AfterLimiter(options, request, v, handler, rl, ids);
            options.bodySchema.Some? && HasBody(request.verb) && request.body.None? ==>
              r.status == 500 && ErrorOf(r) == Some(("INTERNAL_ERROR", "Internal server error"))
    ensures var r := AfterLimiter(options, request, v, handler, rl, ids);
            var bodyPasses := !(options.bodySchema.Some? && HasBody(request.verb)) || ParsedBody(options, request).Some?;
            bodyPasses ==>
            if handler(c).None? then r.status == 500 && ErrorOf(r) == Some(("INTERNAL_ERROR", "Internal server error"))
            else
              r.status == handler(c).value.status && r.body == handler(c).value.body &&
              HeaderValue(r, "X-Request-ID") == Some(ids.requestId) &&
              HeaderValue(r, "Access-Control-Allow-Origin") == Some("*") &&
              HeaderValue(r, "X-RateLimit-Limit") == Some(IntToString(rl.limit)) &&
              HeaderValue(r, "X-RateLimit-Remaining") == Some(IntToString(rl.remaining)) &&
              HeaderValue(r, "X-RateLimit-Reset") == Some(IntToString(rl.reset))
  {
    if handler(c).Some? {
      ResponseHeadersSet(handler(c).value.headers, ids.requestId, rl);
    }
  }

  /** The pipeline's headers, whatever the handler set before them. */
  lemma ResponseHeadersSet(h: map<string, string>, requestId: string, rl: RateLimitResult)
    ensures var r := SetHeaders(h, ResponseHeaders(requestId, rl));
            "X-Request-ID" in r && r["X-Request-ID"] == requestId &&
            "Access-Control-Allow-Origin" in r && r["Access-Control-Allow-Origin"] == "*" &&
            "X-RateLimit-Limit" in r && r["X-RateLimit-Limit"] == IntToString(rl.limit) &&
            "X-RateLimit-Remaining" in r && r["X-RateLimit-Remaining"] == IntToString(rl.remaining) &&
            "X-RateLimit-Reset" in r && r["X-RateLimit-Reset"] == IntToString(rl.reset)
  {
    var pairs := ResponseHeaders(requestId, rl);
    SetHeadersLastWins(h, pairs, 0);
    SetHeadersLastWins(h, pairs, 1);
    SetHeadersLastWins(h, pairs, 2);
    SetHeadersLastWins(h, pairs, 3);
    SetHeadersLastWins(h, pairs, 4);
  }

  // ---------------------------------------------------------------------------
  // The gateway object: three limiters over one shared store
  // ---------------------------------------------------------------------------

  class Gateway {
    const store: MemoryStore
    const standard: RateLimiter
    const premium: RateLimiter
    const ingestion: RateLimiter

    ghost predicate Valid() {
      standard.globalStore == store && premium.globalStore == store && ingestion.globalStore == store
      && standard.limit == 60 && standard.windowMs == WindowMs && standard.prefix == "api:std"
      && premium.limit == 200 && premium.windowMs == WindowMs && premium.prefix == "api:pre"
      && ingestion.limit == 200 && ingestion.windowMs == WindowMs && ingestion.prefix == "api:ing"
    }

    constructor(shared: MemoryStore)
      ensures Valid() && store == shared
    {
      store := shared;
      standard := new RateLimiter(StandardLimiter, shared);
      premium := new RateLimiter(PremiumLimiter, shared);
      ingestion := new RateLimiter(IngestionLimiter, shared);
    }

    /** `apiKeyRateLimiters[tier] || apiKeyRateLimiters.standard`; None stands for the
        inherited property that is not a limiter. */
    method LimiterFor(tier: string) returns (l: Option<RateLimiter>)
      requires Valid()
      ensures l.None? <==> TierLimiter(tier).None?
      ensures l.Some? ==> l.value.globalStore == store
      ensures l.Some? ==> l.value.limit == TierLimiter(tier).value.limit && l.value.windowMs == TierLimiter(tier).value.windowMs
      ensures l.Some? ==> l.value.prefix == TierLimiter(tier).value.prefix.value
    {
      if tier == "premium" {
        l := Some(premium);
      } else if tier == "ingestion" {
        l := Some(ingestion);
      } else if tier in InheritedNames {
        l := None;
      } else {
        l := Some(standard);
      }
    }

    /** Runs the stages one after another against the shared store. */
    method Handle(options: HandlerOptions, request: Request, backend: Backend,
                  handler: Context -> Option<Response>, ids: Ids, now: int, clock: Clock) returns (response: Response)
      requires Valid()
      modifies store
      ensures Outcome(response, store.store) == Pipeline(options, request, backend, handler, ids, now, clock, old(store.store))
    {
      if request.verb == "OPTIONS" {
        return PreflightResponse();
      }
      var validation := ValidateApiKey(ApiKeyHeader(request), backend.hashApiKey, backend.keys, backend.keyLookupFails, backend.toEpoch, now);
      if validation.Invalid? {
        var message := if validation.error != "" then validation.error else "Invalid API key";
        return UnauthorizedResponse(message, ids.envelopeId, ids.timestamp);
      }
      var scopeError := ScopeError(options, validation);
      if scopeError.Some? {
        return ForbiddenResponse(scopeError.value, ids.envelopeId, ids.timestamp);
      }
      var tier := ResolveTier(options.rateLimitTier, validation.key.rateLimitTier);
      var limiter := LimiterFor(tier);
      if limiter.None? {
        return InternalErrorResponse("Internal server error", ids.envelopeId, ids.timestamp);
      }
      var identifier := Identifier(validation.key, request.headers);
      var rl := limiter.value.Check(identifier, clock);
      if !rl.success {
        return RateLimitedResponse(CeilSeconds(rl.retryAfter), ids.envelopeId, ids.timestamp);
      }
      response := Finish(options, request, validation, handler, rl, ids);
    }

    /** The stages after a passed check: body, pagination, the handler and its headers. */
    method Finish(options: HandlerOptions, request: Request, validation: Validation,
                  handler: Context -> Option<Response>, rl: RateLimitResult, ids: Ids) returns (response: Response)
      requires validation.Valid?
      ensures response == AfterLimiter(options, request, validation, handler, rl, ids)
    {
      var context := ContextFor(ids, validation);
      if options.bodySchema.Some? && HasBody(request.verb) {
        if request.body.None? {
          return InternalErrorResponse("Internal server error", ids.envelopeId, ids.timestamp);
        }
        var parsed := options.bodySchema.value(request.body.value);
        if parsed.Rejected? {
          return BadRequestResponse(IssuesMessage(parsed.issues), None, ids.envelopeId, ids.timestamp);
        }
        context := context.(body := Some(parsed.data));
      }
      if options.pagination {
        context := context.(pagination := Some(ParsePagination(request.limitParam, request.offsetParam)));
      }
      var handled := handler(context);
      if handled.None? {
        return InternalErrorResponse("Internal server error", ids.envelopeId, ids.timestamp);
      }
      var headers := ApplyHeaders(handled.value.headers, ResponseHeaders(ids.requestId, rl));
      response := handled.value.(headers := headers);
    }
  }
}
