# claude-telemetry-saas in Dafny

A verified model of the logic of claude-telemetry-saas. The system has two parts. A hosted
TypeScript service takes in the telemetry of coding-assistant sessions; it authenticates API
keys, rate-limits callers, aggregates event batches into session rollups and runs team
management. A local Python plugin records events, queues them for upload, batches the
uploads and builds text reports.

The model follows the source file by file, one module per file:

| module | models |
|---|---|
| `RateLimit` (`rate_limit.dfy`) | the fixed-window limiter: `MemoryStore` and `RateLimiter` as classes over a `map<string, Entry>`, the client identifier and the rate-limit headers |
| `ApiScopes`, `ApiKeys` | the scope table, the `admin` wildcard, `requireScopes`, the rate-limit tiers, key generation and the `validateApiKey` decision chain |
| `ApiKeysService` | scope validation, key creation and revocation over a `KeyTable` class, and the key listing |
| `ServiceTypes`, `ApiResponse` | `ServiceResult`, the status table, the response envelopes and the datastore error classifier |
| `ApiMiddleware` | `createApiHandler`, run stage by stage by the `Gateway` class over the shared limiter store, plus tier, identifier and pagination resolution |
| `EventTypes`, `EventsRoute`, `EventsService` | the event schema as a batch validator, the events route, and `ingestEvents` (rows, grouping by session, rollup merge, affected dates) over an `EventStore` class |
| `SessionsRoute`, `AnalyticsTypes`, `AnalyticsService` | pagination and `hasMore`, the 7×24 heatmap loop, and the row mapping of the top-tools and daily-activity queries |
| `TeamTypes`, `Replace`, `TeamsService`, `TeamsActions` | both slug transforms; team creation with rollback; `getTeam`; the invite and remove rules over a `TeamStore` class; and the unchecked server actions |
| `Telemetry` | the plugin's engine: sanitisers, type renaming, the sequence counter, the push queue and its batched flush, the session index, the pending-tool stacks, retention cleanup and transcript counting |
| `Reporter` | `load_events`, the counter-based `aggregate` and the bars and lists of `text_report` |
| `Strings`, `Sorting`, `Counters`, `Json`, `Wrappers` | the languages' string order, radix printing, `trim`, lower-casing, sorting, Python's `Counter`, JSON values and `Option` |

Everything the code reaches outside itself is a parameter:
- the clock (`now`, epoch milliseconds or seconds, and formatted dates);
- `Math.random` and `crypto.getRandomValues` (given bytes or values);
- the SHA-256 key hash and zod's datetime check (functions);
- `Date` parsing and `datetime.fromisoformat` (functions);
- `json.dumps` and `str` (functions);
- the outcome of every datastore call and HTTP POST (an error value, a flag saying that the
  call failed, or a function of the call).

Datastore tables are `seq` fields of classes. A `.single()` lookup gives its row when the query
does not fail and exactly one row matches. The code answers a failed lookup like a missing row
(it tests the error and the data together), and the model does the same. A file of the plugin is a class field that holds its parsed contents, with a
flag for a file that does not parse.

Some behaviour of the code that a reader might not expect, and that the model follows:
- `rateLimited()` sets only `X-Request-ID`, and the pipeline returns its 429 before any other
  header is attached (src/lib/api-middleware.ts:120-122). So a 429 carries no `Retry-After`
  and no `X-RateLimit-*` header; the wait appears only in `details.retryAfter`
  (`ApiResponse.RateLimitedResponse`). A schema rejection after authentication has no
  rate-limit headers either.
- Each envelope helper gives its response's `X-Request-ID` header and the envelope's request
  id the same value. `ApiResponse.ErrorResponse` and `ApiResponse.SuccessResponse` state this.
  But inside `createApiHandler` the pipeline then writes its own id into the header of a
  handled response. The handler's envelope carries an id generated separately, so there the
  two differ. `ApiMiddleware.Gateway.Handle` keeps the two ids apart (`Ids.requestId` and
  `Ids.envelopeId`).
- A comment in `flush_push_queue` says a partial flush keeps only the unsent events. The code
  keeps the events after the first `pushed` ones; see "Findings".

## Model

| member | source | states |
|---|---|---|
| RateLimit.Unexpired | src/lib/rate-limit.ts:55-62 | the kept entries are exactly those whose window is still open at `now`, each unchanged |
| RateLimit.MemoryStore.constructor | src/lib/rate-limit.ts:20-26 | a new store holds no entries |
| RateLimit.MemoryStore.Get | src/lib/rate-limit.ts:28-35 | an absent key gives undefined; a live entry is returned with the store unchanged; an entry at or past its reset time is deleted and reported absent |
| RateLimit.MemoryStore.Set | src/lib/rate-limit.ts:37-39 | the key now maps to the given entry and nothing else changes |
| RateLimit.MemoryStore.Increment | src/lib/rate-limit.ts:41-53 | an absent key, or one found expired by the clock read in `get`, gets `{count: 1, resetTime: now + windowMs}` with the clock read in `increment`; a live one gets count + 1 with the same reset time; no other key changes |
| RateLimit.Incremented | src/lib/rate-limit.ts:41-53 | the entry after one increment: count + 1 and the same reset time when the key holds a window still open at the `get` clock, else count 1 and a window ending `windowMs` after the `increment` clock |
| RateLimit.MemoryStore.Cleanup | src/lib/rate-limit.ts:55-62 | afterwards the store is exactly the entries with `now < resetTime` |
| RateLimit.MemoryStore.Destroy | src/lib/rate-limit.ts:64-70 | the store is emptied |
| RateLimit.CheckResult | src/lib/rate-limit.ts:82-87 | success iff the incremented count is at most the limit; remaining is `max(0, limit - count)` and never negative; retryAfter is 0 on success and `resetTime - now` on refusal |
| RateLimit.RateLimiter.constructor | src/lib/rate-limit.ts:75-76 | the limiter keeps limit and window, and the prefix defaults to "rl" |
| RateLimit.RateLimiter.Check | src/lib/rate-limit.ts:79-88 | increments the counter under `prefix:identifier` (and nothing else) with the clocks read in `increment` and `get`, and reports `CheckResult` of the new counter at the clock read in `check` |
| RateLimit.RateLimiter.Reset | src/lib/rate-limit.ts:89-92 | installs count 0 with a window ending at `now + windowMs` under `prefix:identifier`, nothing else changes |
| RateLimit.NthRequestInWindow | src/lib/rate-limit.ts:41-53 | starting without an open window, the n-th request whose `get` clock lies inside the first request's window sees count n with the first request's reset time, so it passes iff n <= limit |
| RateLimit.CleanupIsUnobservable | src/lib/rate-limit.ts:28-35 | dropping the windows closed at a time no later than the next `get` never changes what that increment computes |
| RateLimit.RetryAfterBounds | src/lib/rate-limit.ts:82-85 | with the three clock reads in order and every window opened no later than the first, an accepted check reports 0; a refused one reports at most `windowMs` minus the time between the first and last read, and a positive wait unless the clock moved between `get` and `check` or a whole window passed |
| RateLimit.RetryAfterCanBeZero | src/lib/rate-limit.ts:30-85 | a refused check can report a wait of 0 when the window closes between the read in `get` and the one in `check`; it then gets no `Retry-After` header |
| RateLimit.CheckKeepsWindowsBounded | src/lib/rate-limit.ts:41-53 | both increment and reset, at the same or a later clock, keep every window of the limiter's keys within `windowMs` of the clock |
| RateLimit.CheckAfterReset | src/lib/rate-limit.ts:89-92 | the first request after a reset sees count 1, whatever its clocks, and passes any limit >= 1 |
| RateLimit.KeysSeparate | src/lib/rate-limit.ts:80 | two different identifiers, or two different prefixes of the same length, never give the same store key |
| RateLimit.Wrap32 | src/lib/rate-limit.ts:110 | the result is a signed 32-bit value congruent to the input modulo 2^32 |
| RateLimit.StringHash | src/lib/rate-limit.ts:105-111 | the fingerprint hash stays a signed 32-bit value |
| RateLimit.FingerprintHash | src/lib/rate-limit.ts:105-111 | the loop computes `StringHash` of the string |
| RateLimit.FirstItem | src/lib/rate-limit.ts:98 | the first comma-separated item is a prefix of the header and holds no comma |
| RateLimit.ClientIdentifierOf | src/lib/rate-limit.ts:96-113 | a non-empty `x-forwarded-for` gives its trimmed first item; otherwise a non-empty `x-real-ip` gives that value; otherwise the identifier starts with "fingerprint:" |
| RateLimit.ClientIdentifier | src/lib/rate-limit.ts:96-113 | the method computes `ClientIdentifierOf` of the headers |
| RateLimit.ClientIdentifierReadsFourHeaders | src/lib/rate-limit.ts:96-104 | two requests that agree on the four headers it reads get the same identifier |
| RateLimit.CeilSeconds | src/lib/rate-limit.ts:121 | the result is the ceiling of ms / 1000 |
| RateLimit.RateLimitHeaders | src/lib/rate-limit.ts:115-124 | the three limit headers carry the result's limit, remaining and reset; `Retry-After` is added iff retryAfter > 0, with the value `ceil(retryAfter / 1000)` |
| RateLimit.RetryAfterHeaderReadsBack | src/lib/rate-limit.ts:120-122 | a positive wait gives a `Retry-After` value that reads back as a whole number of seconds >= 1 that covers the wait |
| RateLimit.NoRetryAfterWithoutWait | src/lib/rate-limit.ts:120 | with no positive wait, no `Retry-After` header is emitted |
| ApiScopes.ScopeNames | src/types/api-keys.ts:1-7 | exactly five distinct scope names, among them `admin`, `write:events` and `read:sessions` |
| ApiScopes.Every | src/types/api-keys.ts:63 | true iff every required scope is among the key's scopes |
| ApiScopes.HasRequiredScopes | src/types/api-keys.ts:58-64 | a key holding `admin` passes any requirement; otherwise it passes iff every required scope is among its scopes |
| ApiScopes.EmptyRequirementAlwaysHolds | src/types/api-keys.ts:63 | an empty requirement is satisfied by any key |
| ApiScopes.ScopesMonotone | src/types/api-keys.ts:58-64 | adding scopes to a key never turns a grant into a refusal |
| ApiScopes.RequirementAntitone | src/types/api-keys.ts:58-64 | requiring a subset of the scopes never turns a grant into a refusal |
| ApiScopes.RequireScopes | src/types/api-keys.ts:66-75 | absent scopes give "No scopes available"; otherwise the result is null iff `HasRequiredScopes` holds, and the refusal lists the required scopes |
| ApiScopes.RateLimitTier | src/types/api-keys.ts:41-54 | exactly three tiers: standard 60/1000, premium 200/5000, ingestion 200/10000 requests per minute/hour |
| ApiScopes.TiersOrdered | src/types/api-keys.ts:41-54 | no tier is stricter than standard, and each hourly budget is at least the per-minute one |
| ApiKeys.AlphabetChar | src/lib/api-keys.ts:8-9 | every alphabet position gives an ASCII letter or digit |
| ApiKeys.AlphabetLayout | src/lib/api-keys.ts:8-9 | the alphabet has 62 distinct characters: "A".."Z", then "a".."z", then "0".."9" |
| ApiKeys.GenerateRandomString | src/lib/api-keys.ts:7-15 | the string has the requested length, and its i-th character is `chars[x % 62]` for the i-th random byte, so it is alphanumeric |
| ApiKeys.GenerateApiKey | src/lib/api-keys.ts:17-27 | the key is `ct_live_` plus 32 alphabet characters (40 in all); its prefix is its first 12 characters; its hash is the hash of the plaintext; it has the validator's format |
| ApiKeys.KeysWithHash | src/lib/api-keys.ts:51-55 | the selected rows are exactly the table's rows with that hash |
| ApiKeys.ValidateApiKey | src/lib/api-keys.ts:35-80 | a missing or empty header is "Missing X-API-Key header"; a bad prefix or length is "Invalid API key format"; a failed lookup, or anything but exactly one row with the hash, is "Invalid API key"; a past `expires_at` is "API key has expired"; otherwise valid, with the row, its user and its scopes (or []), and only when the lookup succeeded |
| ApiKeys.MalformedRejectedBeforeLookup | src/lib/api-keys.ts:44-46 | a malformed header is refused whatever the hash function, the table and the lookup's outcome |
| ApiKeys.GeneratedKeyAccepted | src/lib/api-keys.ts:22-79 | a well-formed key stored as the only row with its hash and with no expiry is accepted when the lookup succeeds, with the stored owner and scopes |
| ApiKeys.OnlyMatch | src/lib/api-keys.ts:51-55 | when exactly one row carries the hash, the lookup selects that row alone |
| ApiKeys.NoMatch | src/lib/api-keys.ts:57-59 | when no row carries the hash, the lookup selects nothing |
| ApiKeys.ExpiryIsPermanent | src/lib/api-keys.ts:63-65 | an expired key stays expired at every later time |
| ApiKeysService.InvalidScopes | src/lib/services/api-keys.service.ts:50-53 | the offending scopes are exactly the requested ones outside the five known names |
| ApiKeysService.ScopeNamesJson | src/lib/services/api-keys.service.ts:61 | the `valid_scopes` detail lists the scope names one for one |
| ApiKeysService.ScopeError | src/lib/services/api-keys.service.ts:49-74 | unknown names give INVALID_SCOPES listing them (checked first); an empty list gives "At least one scope is required"; no error iff the list is non-empty and every name is known |
| ApiKeysService.OwnedBy | src/lib/services/api-keys.service.ts:20-23 | the selected rows are exactly those of the given user |
| ApiKeysService.WithoutKey | src/lib/services/api-keys.service.ts:120-124 | the surviving rows are exactly those not matching both the key id and the user; with no match the table is unchanged |
| ApiKeysService.RevokedKeyRejected | src/lib/services/api-keys.service.ts:115-148 | once its owner has deleted it, a key no longer authenticates, whether or not the lookup fails |
| ApiKeysService.KeyTable.constructor | src/lib/services/api-keys.service.ts:16-24 | the table starts with the given rows |
| ApiKeysService.KeyTable.ListApiKeys | src/lib/services/api-keys.service.ts:16-38 | a query failure gives QUERY_FAILED with the datastore's message as `details`; otherwise the user's keys and only those, newest `created_at` first, as a permutation of the user's rows |
| ApiKeysService.KeyTable.CreateApiKey | src/lib/services/api-keys.service.ts:44-109 | a scope error, or an insert failure (CREATE_FAILED with the datastore's message as `details`), leaves the table unchanged and is returned; otherwise one row is appended, holding the hash and 12-character prefix of a well-formed generated key, the scopes, and `expires_at` (null by default), but no plaintext, which is returned beside it |
| ApiKeysService.KeyTable.RevokeApiKey | src/lib/services/api-keys.service.ts:115-148 | a delete failure is DELETE_FAILED, with the datastore's message as `details` and the table unchanged; otherwise exactly the rows matching id and user are removed; NOT_FOUND is returned iff there were none, and `Success(true)` (`{ revoked: true }`) when one matched |
| ApiKeysService.DeletedNone | src/lib/services/api-keys.service.ts:137-145 | a delete that removed nothing found no matching row |
| ApiKeysService.CreatedKeyValidates | src/lib/services/api-keys.service.ts:76-108 | a key stored by create, with no other row sharing its hash and no expiry, authenticates as its owner with the requested scopes when the lookup succeeds |
| ServiceTypes.DbFailure | src/lib/services/types.ts:7-9 | a failure carrying the service's code and message, with the datastore's message as `details` |
| ApiResponse.StatusFromCode | src/lib/api-response.ts:48-62 | the status lies in 400..500, and it is 500 exactly for the internal and database codes and for any code not in the table |
| ApiResponse.StatusOfEachCode | src/lib/api-response.ts:49-60 | BAD_REQUEST 400, UNAUTHORIZED 401, FORBIDDEN 403, NOT_FOUND 404, CONFLICT 409, VALIDATION_ERROR 422, RATE_LIMITED 429, PAYLOAD_TOO_LARGE 413, INTERNAL_ERROR and DATABASE_ERROR 500 |
| ApiResponse.DecodeError | src/lib/api-response.ts:8-16 | a decoded envelope comes from a body with an `error` member |
| ApiResponse.ErrorEnvelopeRoundTrip | src/lib/api-response.ts:103-112 | reading an encoded error envelope gives back its code, message, details, request id and timestamp |
| ApiResponse.ErrorResponse | src/lib/api-response.ts:96-115 | an explicit status wins over the table; the body reads back as the code, message, details, request id and timestamp; the `X-Request-ID` header equals the envelope's request id |
| ApiResponse.SuccessResponse | src/lib/api-response.ts:64-79 | status 200 unless given; the body carries the data and no error; without an overriding `requestId` in the caller's meta, the `X-Request-ID` header equals `meta.requestId` |
| ApiResponse.ListResponse | src/lib/api-response.ts:81-94 | status 200 with the page, its pagination object, and a request id equal to the header |
| ApiResponse.BadRequestResponse | src/lib/api-response.ts:117-119 | 400 with code BAD_REQUEST and the message |
| ApiResponse.UnauthorizedResponse | src/lib/api-response.ts:121-123 | 401 with code UNAUTHORIZED and the message |
| ApiResponse.ForbiddenResponse | src/lib/api-response.ts:125-127 | 403 with code FORBIDDEN and the message |
| ApiResponse.NotFoundResponse | src/lib/api-response.ts:129-131 | 404 with code NOT_FOUND and the message |
| ApiResponse.RateLimitedResponse | src/lib/api-response.ts:133-137 | 429 with code RATE_LIMITED, "Too many requests" and `details.retryAfter` equal to the seconds given; its only header is `X-Request-ID`, so no `Retry-After` |
| ApiResponse.InternalErrorResponse | src/lib/api-response.ts:139-141 | 500 with code INTERNAL_ERROR and the message |
| ApiResponse.CreatedResponse | src/lib/api-response.ts:143-145 | 201 with the data |
| ApiResponse.NoContentResponse | src/lib/api-response.ts:147-149 | 204 with no body and no headers |
| ApiResponse.ClassifySupabaseError | src/lib/api-response.ts:151-160 | PGRST116 is NOT_FOUND, 23505 is CONFLICT, 42501 is FORBIDDEN, and anything else (including no code) is DATABASE_ERROR, each with its message |
| ApiResponse.HandleSupabaseError | src/lib/api-response.ts:151-160 | the response carries the classified code and message, with status 403, 404, 409 or 500 |
| ApiMiddleware.ResolveTier | src/lib/api-middleware.ts:114 | the route's tier if non-empty, else the key's tier if non-empty, else "standard" |
| ApiMiddleware.TierLimiter | src/lib/api-middleware.ts:60-117 | premium and ingestion get their own limiter; the names an object literal inherits (`constructor`, `toString`, `__proto__` and the rest) give no limiter; any other tier gets the standard one; every limiter has a 60,000 ms window and a 7-character prefix |
| ApiMiddleware.LimiterTableMatchesTiers | src/lib/api-middleware.ts:60-64 | every declared tier has a limiter, and its per-minute limit agrees with the tier table (60, 200, 200) |
| ApiMiddleware.TierLimitersSeparate | src/lib/api-middleware.ts:60-64 | two different tier limiters never share a counter, whatever the identifiers |
| ApiMiddleware.Identifier | src/lib/api-middleware.ts:118 | the key id when non-empty, else the client identifier of the request |
| ApiMiddleware.ParsePagination | src/lib/api-middleware.ts:143-149 | `limit = min(limit or 50, 200)` and `offset = offset or 0` for numeric inputs, so the limit never exceeds 200 |
| ApiMiddleware.PreflightResponse | src/lib/api-middleware.ts:86-96 | 204 with no body and `Access-Control-Allow-Origin: *` |
| ApiMiddleware.SetHeadersLastWins | src/lib/api-middleware.ts:159-163 | a header set by a pair that no later pair overrides ends with that pair's value |
| ApiMiddleware.SetHeadersKeepsOthers | src/lib/api-middleware.ts:159-163 | a header that no pair names keeps its old value (or stays absent) |
| ApiMiddleware.ApplyHeaders | src/lib/api-middleware.ts:159-163 | the loop of `headers.set` calls gives `SetHeaders` of the pairs |
| ApiMiddleware.ScopeError | src/lib/api-middleware.ts:104-111 | a refusal iff the route declares a non-empty scope list that the key's scopes do not cover |
| ApiMiddleware.ParsedBody | src/lib/api-middleware.ts:132-141 | the handler's `body` is the schema's output exactly when the route has a schema, the method carries a body, the body is JSON and the schema accepts it; otherwise there is none |
| ApiMiddleware.AfterLimiter | src/lib/api-middleware.ts:124-169 | after a passed check: a body that is not JSON gives 500, a body the schema rejects gives 400; otherwise the handler, called with `HandlerContext`, decides status and body, and a handler that throws gives 500 |
| ApiMiddleware.Pipeline | src/lib/api-middleware.ts:74-170 | a request the pipeline answers before counting (preflight, refused key, missing scopes, a tier without limiter) leaves the store unchanged; any other increments exactly its own counter, and gets 429 when the check refuses it |
| ApiMiddleware.PreflightFirst | src/lib/api-middleware.ts:86-96 | OPTIONS gets the preflight answer before authentication, and no counter changes |
| ApiMiddleware.UnauthenticatedTouchesNoCounter | src/lib/api-middleware.ts:98-102 | a refused key gets 401 UNAUTHORIZED with the validator's message, and the limiter store is unchanged |
| ApiMiddleware.ScopeFailureTouchesNoCounter | src/lib/api-middleware.ts:104-111 | missing scopes give 403 before the rate-limit stage, and the limiter store is unchanged |
| ApiMiddleware.OneCounterPerRequest | src/lib/api-middleware.ts:113-169 | an authenticated, authorised request whose tier names no limiter gets 500 with no counter changed; otherwise it increments exactly one counter, that of its resolved tier and identifier; a refused check gives 429 with `ceil(retryAfter / 1000)`, a passed one continues to the later stages |
| ApiMiddleware.SchemaOnlyForWriteMethods | src/lib/api-middleware.ts:133 | for methods other than POST, PUT and PATCH the body schema has no effect on the outcome |
| ApiMiddleware.SchemaRejectionIs400 | src/lib/api-middleware.ts:133-139 | a body the schema rejects gives 400 BAD_REQUEST with the issues joined as `path: message` by "; " |
| ApiMiddleware.HandledResponseHeaders | src/lib/api-middleware.ts:132-169 | for any route, body routes included: a schema route whose body is not JSON gives 500; when the body stage passes, the handler is called with the parsed body, a handler that throws gives 500 INTERNAL_ERROR, and otherwise its status and body are kept and it carries the pipeline's `X-Request-ID`, `Access-Control-Allow-Origin: *` and the rate-limit headers |
| ApiMiddleware.ResponseHeadersSet | src/lib/api-middleware.ts:159-163 | whatever the handler set, the five pipeline headers end with the pipeline's values |
| ApiMiddleware.Gateway.constructor | src/lib/api-middleware.ts:60-64 | three limiters (api:std 60, api:pre 200, api:ing 200, 60,000 ms) over one shared store |
| ApiMiddleware.Gateway.LimiterFor | src/lib/api-middleware.ts:115-117 | no limiter exactly when `TierLimiter` names none; otherwise the limiter object has that configuration's limit, window and prefix, over the shared store |
| ApiMiddleware.Gateway.Handle | src/lib/api-middleware.ts:74-170 | the stage-by-stage handler gives the response and the new limiter store of `Pipeline`, with a 500 for a tier without limiter |
| ApiMiddleware.Gateway.Finish | src/lib/api-middleware.ts:124-165 | the stages after the limiter (body, pagination, handler, headers) give `AfterLimiter` |
| EventsRoute.EventOf | src/app/api/v1/events/route.ts:12-28 | a valid event object carries a datetime `ts`, an enum event name, a non-empty `session_id` and a natural `seq` read back from the object, and `data` as sent or the empty record when missing |
| EventsRoute.ReadEvent | src/app/api/v1/events/route.ts:41-44 | an event the handler reads has the object's `session_id` |
| EventsRoute.EventRoundTrip | src/app/api/v1/events/route.ts:12-28 | the handler reads back exactly the event the schema output encodes |
| EventsRoute.NormalisedEvents | src/app/api/v1/events/route.ts:27-31 | the schema output has one normalised object per input event, in order |
| EventsRoute.StringIssues | src/app/api/v1/events/route.ts:12-15 | a string field gives no issue iff it is present, a string and passes its check (datetime, enum, minimum length); otherwise one issue at the field's own path |
| EventsRoute.SeqIssues | src/app/api/v1/events/route.ts:16 | `seq` gives no issue iff it is a natural number; otherwise one or two issues (`int` and `min(0)` are both checked), at `seq`'s path |
| EventsRoute.DataIssues | src/app/api/v1/events/route.ts:17 | `data` gives no issue iff it is absent or an object; otherwise one issue at `data`'s path |
| EventsRoute.ElementIssues | src/app/api/v1/events/route.ts:12-18 | an element has no issue iff it is a valid event; a non-object gives one type issue at the element's path; every issue lies under the element's path, field by field |
| EventsRoute.EmptyObjectIssues | src/app/api/v1/events/route.ts:12-18 | an empty object gives four issues, one at each of `ts`, `event`, `session_id` and `seq` |
| EventsRoute.NegativeFractionSeqIssues | src/app/api/v1/events/route.ts:16 | a `seq` of -0.5 gives two issues at the same path, `invalid_type` and `too_small` |
| EventsRoute.IssuesAtNone | src/app/api/v1/events/route.ts:31 | the array gives no element issue iff no element has any |
| EventsRoute.IssuesAtFromElements | src/app/api/v1/events/route.ts:31 | every issue of the array is an issue of one of its elements at that element's path `events.i` |
| EventsRoute.ElementIssuesKept | src/app/api/v1/events/route.ts:31 | every issue of every element is reported |
| EventsRoute.EventIssues | src/app/api/v1/events/route.ts:12-31 | there are no event issues iff every element satisfies the event schema; every issue lies under `events.i` for an invalid element i |
| EventsRoute.InvalidElementReported | src/app/api/v1/events/route.ts:31 | every invalid element has an issue under its own path `events.i` |
| EventsRoute.BodySchema | src/app/api/v1/events/route.ts:30-32 | the body is accepted iff `events` is an array of 1 to 1000 valid events, and an acceptance outputs the normalised events; a non-object body gives one type issue at the root; a missing or non-array `events` gives one type issue at `events`; otherwise every issue lies under `events`, and a rejection carries at least one |
| EventsRoute.ReadEvents | src/app/api/v1/events/route.ts:41-44 | a readable array gives one event per element, each the reading of that element |
| EventsRoute.EncodeAll | src/app/api/v1/events/route.ts:12-28 | one encoded object per event, in order |
| EventsRoute.ReadEventsAll | src/app/api/v1/events/route.ts:41-44 | an array whose every element reads as the matching event reads as the whole batch |
| EventsRoute.ReadEncoded | src/app/api/v1/events/route.ts:12-44 | reading back the encoding of a batch gives the batch |
| EventsRoute.AcceptedBodyReachesHandler | src/app/api/v1/events/route.ts:30-44 | for an accepted body the handler sees exactly the client's events, in order, with `data` defaulted to the empty record |
| EventsRoute.AcceptedBatchBounds | src/app/api/v1/events/route.ts:25-31 | an accepted batch holds 1 to 1000 events, each with a non-empty session id and a natural sequence number |
| EventsRoute.Options | src/app/api/v1/events/route.ts:34-39 | the route declares the `write:events` scope, the body schema, the ingestion tier and no pagination |
| EventsRoute.RouteUsesIngestionLimiter | src/app/api/v1/events/route.ts:38 | every accepted key is counted by the ingestion limiter, whatever its own tier |
| EventsRoute.RouteNeedsWriteEvents | src/app/api/v1/events/route.ts:36 | the scope stage refuses a key iff it holds neither `write:events` nor `admin` |
| EventsRoute.InvalidBatchIs400 | src/app/api/v1/events/route.ts:30-32 | a write request with a batch the schema rejects is answered 400 |
| EventsRoute.IngestResponse | src/app/api/v1/events/route.ts:46-50 | a service failure gives 400 BAD_REQUEST with the service message; a success gives 201 with the service data |
| EventsRoute.Handler | src/app/api/v1/events/route.ts:40-51 | readable events are passed, with the user id, to the ingest service and its result mapped to a response; a body without readable events throws |
| EventTypes.ParseEventType | src/types/events.ts:1-10 | a wire name that parses denotes the event type with that name |
| EventTypes.EventTypeNamesRoundTrip | src/types/events.ts:1-10 | every one of the nine event types' names parses back to it, so the names are distinct |
| EventsService.JsRound | src/lib/services/events.service.ts:27 | `Math.round` gives the integer n with n <= x + 0.5 < n + 1 |
| EventsService.ToolNameOf | src/lib/services/events.service.ts:26 | `tool_name` is taken from `data.tool_name` when present and non-null, else null |
| EventsService.DurationOf | src/lib/services/events.service.ts:27 | absent and null give null; any other value goes through JavaScript's number conversion, and is null when that gives NaN, else rounded by `Math.round` |
| EventsService.IntegerTextNumber | src/lib/services/events.service.ts:27 | the decimal text of any integer converts back to that integer |
| EventsService.LeadingSpaceIgnored | src/lib/services/events.service.ts:27 | any run of white space characters, of any kind and length, put before a text does not change the number it converts to |
| EventsService.DurationOfNumber | src/lib/services/events.service.ts:27 | a number, alone or as the one item of an array, is rounded |
| EventsService.DurationOfText | src/lib/services/events.service.ts:27 | integer text such as `"150"` is stored as its integer; empty text and an empty array are stored as 0 |
| EventsService.DurationOfBool | src/lib/services/events.service.ts:27 | `true` is stored as 1 and `false` as 0 |
| EventsService.DurationOfNaN | src/lib/services/events.service.ts:27 | an object, the text `"abc"`, an array holding a boolean and an array of two items all convert to NaN and are stored as null |
| EventsService.LetterTextNaN | src/lib/services/events.service.ts:27 | any text starting with a lower-case letter converts to NaN, whatever follows it, trailing white space included |
| EventsService.BuildRows | src/lib/services/events.service.ts:19-29 | exactly one row per event, in order, carrying the caller's user id, the event's session, type, timestamp, seq and data, and the derived tool name and duration |
| EventsService.GroupStep | src/lib/services/events.service.ts:54-71 | one step of the grouping loop extends the session map and the session order by one event |
| EventsService.WithEvent | src/lib/services/events.service.ts:65-70 | the group's `minTs` becomes the smaller and `maxTs` the larger of its bound and the timestamp, each one of the two; one more event, and one more tool event iff the event is a tool event |
| EventsService.UpdateGroup | src/lib/services/events.service.ts:65-70 | updating an existing group lowers `minTs`, raises `maxTs`, adds one event and one tool event when it is a tool event, as `WithEvent` does |
| EventsService.GroupBySession | src/lib/services/events.service.ts:49-71 | the loop builds the session map of the whole batch and the order in which the sessions were first seen |
| EventsService.GroupCounts | src/lib/services/events.service.ts:54-71 | a session has a group iff some event names it; its `eventCount` is the number of its events and its `toolCount` the number of its `tool_use`/`tool_result` events |
| EventsService.GroupBounds | src/lib/services/events.service.ts:58-67 | a group's `minTs`/`maxTs` are the smallest and largest of its session's timestamps in string order, both attained, so `minTs <= maxTs` |
| EventsService.GroupCountsSumToBatch | src/lib/services/events.service.ts:54-71 | the groups' event counts add up to the batch length |
| EventsService.SessionOrderMatchesGroups | src/lib/services/events.service.ts:73 | the map's iteration order lists each grouped session exactly once |
| EventsService.Duration | src/lib/services/events.service.ts:95-117 | `end - start` when both dates parse and it is positive, else null; never zero or negative |
| EventsService.MergedRollup | src/lib/services/events.service.ts:82-107 | `started_at = min(existing, minTs)`, `ended_at = max(existing, maxTs)` or `maxTs` when the existing end is null or empty, counts added with null as 0, and the duration of the new bounds |
| EventsService.NewRollup | src/lib/services/events.service.ts:108-121 | a new rollup spans the group's `minTs`..`maxTs`, carries its counts and the duration of those bounds |
| EventsService.Upserted | src/lib/services/events.service.ts:74-121 | a failed write leaves the keys unchanged, otherwise the (user, session) key is added; a new session's row carries its ids and the group's event count; a found row's event count is the old count (0 when null) plus the group's |
| EventsService.FailedLookupDropsGroup | src/lib/services/events.service.ts:75-82 | when the lookup of a stored session fails, the insert violates the key and the batch's counts for that session are lost |
| EventsService.FailedLookupOfNewSession | src/lib/services/events.service.ts:75-82 | for a session not yet stored, a failed lookup has the same effect as a successful one |
| EventsService.UpsertAllAt | src/lib/services/events.service.ts:73-122 | each grouped session of the batch gets exactly its own upsert, and every other row of the sessions table is untouched |
| EventsService.DistinctInit | src/lib/services/events.service.ts:73 | dropping the last session of a repeat-free order keeps it repeat-free, and the last one is not in the rest |
| EventsService.UpsertedElsewhere | src/lib/services/events.service.ts:98-120 | one upsert changes only the row of its own (user, session) |
| EventsService.AddNewDistinct | src/lib/services/events.service.ts:127-131 | adding to a Set keeps its elements distinct |
| EventsService.HasDateStep | src/lib/services/events.service.ts:128-131 | a batch has a date iff its prefix has it or its last event's date is it |
| EventsService.AffectedDates | src/lib/services/events.service.ts:127-131 | no more affected dates than events |
| EventsService.AffectedDatesExact | src/lib/services/events.service.ts:127-131 | the affected dates are distinct and are exactly the 10-character prefixes of the batch timestamps |
| EventsService.CollectDates | src/lib/services/events.service.ts:127-131 | the loop collects `AffectedDates` of the batch |
| EventsService.AggregateCalls | src/lib/services/events.service.ts:133-138 | one `update_daily_aggregate(user, date)` call per affected date, in order |
| EventsService.EventStore.constructor | src/lib/services/events.service.ts:10-14 | empty events and sessions tables and no aggregate calls |
| EventsService.EventStore.UpsertSession | src/lib/services/events.service.ts:74-121 | the sessions table becomes `Upserted` of the old one: the merged rollup when the lookup finds the row, the insert when it finds none or fails, and no change when the write fails; events and aggregate calls are unchanged |
| EventsService.EventStore.UpsertSessions | src/lib/services/events.service.ts:73-122 | the loop performs the upserts of every grouped session in map order |
| EventsService.EventStore.RefreshAggregates | src/lib/services/events.service.ts:133-138 | the loop appends one aggregate call per date, changing nothing else |
| EventsService.EventStore.IngestEvents | src/lib/services/events.service.ts:10-141 | an empty batch gives `{inserted: 0}` with no write; an insert failure gives INGEST_FAILED, with the datastore's message as `details`, and no session or aggregate update; otherwise the rows are appended, each session upserted, each affected date refreshed, and `inserted` is the batch length whatever the rollup writes did |
| SessionsRoute.Options | src/app/api/v1/sessions/route.ts:10-14 | the route declares the `read:sessions` scope and pagination, no body schema and no tier override |
| SessionsRoute.QueryValue | src/app/api/v1/sessions/route.ts:18-19 | an absent query value is passed as undefined and a present one, even empty, as it is |
| SessionsRoute.QueryFor | src/app/api/v1/sessions/route.ts:22-27 | the service receives the context's pagination limit and offset (undefined without pagination) and the `from`/`to` query values |
| SessionsRoute.Window | src/app/api/v1/sessions/route.ts:37-38 | the reported window is the pagination's values, or 50 and 0 |
| SessionsRoute.PaginationOf | src/app/api/v1/sessions/route.ts:35-42 | the reported pagination carries the total, the window, and `hasMore = offset + limit < total` |
| SessionsRoute.Handler | src/app/api/v1/sessions/route.ts:15-44 | a service failure gives 400 BAD_REQUEST with the service message; a success gives 200 with the sessions and the pagination object |
| SessionsRoute.EchoedWindowIsRequested | src/app/api/v1/sessions/route.ts:22-38 | the echoed `limit` and `offset` are the values passed to the service |
| SessionsRoute.DefaultWindow | src/app/api/v1/sessions/route.ts:37-41 | a request without `limit`/`offset` reports 50 and 0, and `hasMore` holds iff total > 50 |
| SessionsRoute.Page | src/lib/services/sessions.service.ts:38 | `.range(offset, offset + limit - 1)` holds at most `limit` rows, exactly `limit` when the table reaches that far, the rows from `offset` on in order, and ends within the table |
| SessionsRoute.PagesUntilEnd | src/app/api/v1/sessions/route.ts:39-41 | walking the pages from offset 0 in steps of `limit`, page k (offset k·limit) reports `hasMore` iff (k+1)·limit < total; the page that holds the last row reports false and, when it is not the first, the page before it reports true |
| SessionsRoute.HasMoreIffRowsAfterPage | src/app/api/v1/sessions/route.ts:39-41 | `hasMore` holds iff some row of the table lies after the page returned at that window |
| AnalyticsService.GetDailyActivity | src/lib/services/analytics.service.ts:44-77 | a query failure gives QUERY_FAILED with the datastore's message as `details`; otherwise one activity record per row, in order, with date, sessions, events and tool uses copied (`data ?? []`) |
| AnalyticsService.GetTopTools | src/lib/services/analytics.service.ts:83-119 | a procedure failure gives RPC_FAILED with the datastore's message as `details`; otherwise one record per row with name, count and the three durations (null when missing) copied and `trend = 0` |
| AnalyticsService.AddRow | src/lib/services/analytics.service.ts:152-161 | an array row adds `hourly[hour] ?? 0` to bucket (its day, hour) for each hour below both its length and 24; a non-array row adds nothing |
| AnalyticsService.Accumulate | src/lib/services/analytics.service.ts:150-162 | after the row loop every bucket holds the sum, over all rows, of what each contributes to it |
| AnalyticsService.GetHourlyHeatmap | src/lib/services/analytics.service.ts:125-177 | a query failure gives QUERY_FAILED with the datastore's message as `details`; otherwise exactly 168 entries, entry `dow * 24 + hour` being (dow, hour, the bucket's total, 0 when empty) |
| AnalyticsService.GridLayout | src/lib/services/analytics.service.ts:166-174 | each (dow, hour) has one position in the grid, and positions follow day-then-hour order |
| AnalyticsService.DayTotalSplit | src/lib/services/analytics.service.ts:152-161 | a day's running bucket total splits into that of the earlier rows plus the last row's own values |
| AnalyticsService.DayTotalIsRowsSum | src/lib/services/analytics.service.ts:152-174 | nothing is lost or counted twice: a day's 24 buckets add up to the sum of its rows' first 24 hourly values |
| AnalyticsService.EmptyDay | src/lib/services/analytics.service.ts:171 | with no rows every bucket total of a day is 0 |
| AnalyticsService.SkippedRow | src/lib/services/analytics.service.ts:156-158 | a row that is not an array, belongs to another day, or an hour of 24 or more changes no bucket |
| Replace.Filter | src/lib/services/teams.service.ts:18 | deleting a character class keeps only accepted characters of the input, and changes nothing when all are accepted |
| Replace.DropRun | src/lib/services/teams.service.ts:19-20 | dropping a leading run leaves a suffix that does not start with the class, and only class characters were dropped |
| Replace.CollapseRuns | src/lib/services/teams.service.ts:19-20 | each character of the result is "-" or a non-class character of the input; a leading class run becomes a leading "-" |
| Replace.CollapseNoDoubleDash | src/lib/services/teams.service.ts:20 | when "-" is in the class, the result holds no "--" |
| Replace.CollapseFixesClean | src/lib/services/teams.service.ts:19 | a string with no class character is left unchanged |
| Replace.CollapseFixesSingleDashes | src/lib/services/teams.service.ts:20 | a string whose only class characters are single dashes is left unchanged |
| Replace.TrimDashes | src/lib/services/teams.service.ts:21 | removes one leading and one trailing "-"; changes nothing without edge dashes; a string without "--" comes out with no "--" and no "-" at either end |
| TeamsService.TrimKeepsChars | src/lib/services/teams.service.ts:17 | trimming only removes characters |
| TeamsService.Slugify | src/lib/services/teams.service.ts:14-22 | every slug holds only `[a-z0-9-]`, so no upper case, white space or "_", with no "--" and no "-" at either end |
| TeamsService.KeptStage | src/lib/services/teams.service.ts:16-18 | after lower-casing, trimming and deleting, only lower-case word characters, white space and "-" remain |
| TeamsService.SeparatorStage | src/lib/services/teams.service.ts:19 | turning runs of white space and "_" into "-" leaves only slug characters |
| TeamsService.DashStage | src/lib/services/teams.service.ts:20 | squeezing "-" runs keeps slug characters and leaves no "--" |
| TeamsService.KeptIsSlugChar | src/lib/services/teams.service.ts:18-19 | a kept lower-case character that is not a separator is a slug character |
| TeamsService.SlugCharFacts | src/lib/services/teams.service.ts:16-20 | a slug character is not white space, not upper case, is kept, and is not a separator |
| TeamsService.StagesFixSlug | src/lib/services/teams.service.ts:15-21 | every stage of the chain leaves a well-formed slug unchanged |
| TeamsService.SlugifyIdempotent | src/lib/services/teams.service.ts:14-22 | `slugify(slugify(s)) == slugify(s)` |
| TeamsService.TeamSlug | src/lib/services/teams.service.ts:84 | the stored slug is the slugified name, or "team-" plus the clock in base 36 when that is empty |
| TeamsService.TeamSlugShape | src/lib/services/teams.service.ts:84 | the stored slug is never empty and always well formed, fallback included |
| TeamsService.DigitIsSlugChar | src/lib/services/teams.service.ts:84 | a base-36 digit is a slug character other than "-" |
| TeamsService.FallbackShape | src/lib/services/teams.service.ts:84 | "team-" followed by base-36 digits is a well-formed slug |
| TeamsService.Where | src/lib/services/teams.service.ts:143-148 | a filtered query gives exactly the rows that satisfy its conditions |
| TeamsService.Single | src/lib/services/teams.service.ts:143-148 | `.single()` gives a row iff exactly one row matches, and then that row |
| TeamsService.Lookup | src/lib/services/teams.service.ts:143-158 | a `.single()` lookup as the services read it, where an error is treated like no data: a failed query gives no row; otherwise the row iff exactly one matches |
| TeamsService.Membership | src/lib/services/teams.service.ts:143-148 | the membership rows are exactly those of that user in that team |
| TeamsService.MemberRows | src/lib/services/teams.service.ts:312-317 | the target rows are exactly those with that id in that team |
| TeamsService.WithoutMember | src/lib/services/teams.service.ts:340-344 | the delete keeps exactly the rows not matching both id and team |
| TeamsService.TeamMembersOf | src/lib/services/teams.service.ts:176-180 | the listed members are exactly that team's rows |
| TeamsService.TeamsWithId | src/lib/services/teams.service.ts:160-164 | the team lookup selects exactly the rows with that id |
| TeamsService.WithoutTeam | src/lib/services/teams.service.ts:119 | the rollback delete keeps exactly the teams with another id, and changes nothing when none has that id |
| TeamsService.InviteCheck | src/lib/services/teams.service.ts:213-242 | a failed inviter lookup or a non-member gets FORBIDDEN "You are not a member of this team"; a member who is neither owner nor admin gets FORBIDDEN "Only owners and admins can invite members"; it passes iff the lookup succeeds and the inviter is the single membership row and an owner or admin |
| TeamsService.InviteRole | src/lib/services/teams.service.ts:244-245 | an owner role is stored as admin; other roles are unchanged |
| TeamsService.RemoveCheck | src/lib/services/teams.service.ts:280-338 | a failed requester lookup, a non-member or a plain member requester gets FORBIDDEN; a failed target lookup or a missing target gets NOT_FOUND "Team member not found"; an owner target gets FORBIDDEN "Cannot remove the team owner"; it passes iff both lookups succeed, the requester is an owner or admin and the target is a single non-owner row |
| TeamsService.RemovalKeepsOwners | src/lib/services/teams.service.ts:329-344 | a removal that passes the role checks deletes no owner row |
| TeamsService.RemovalIsTargeted | src/lib/services/teams.service.ts:340-344 | a removal that passes the role checks deletes exactly the target row and keeps every other |
| TeamsService.CanManage | src/lib/services/teams.service.ts:231-234 | an owner or an admin may manage members, a plain member may not |
| TeamsService.TeamStore.constructor | src/lib/services/teams.service.ts:79-83 | the three tables start with the given rows |
| TeamsService.TeamStore.CreateTeam | src/lib/services/teams.service.ts:79-131 | a team insert error changes nothing and returns CONFLICT for "23505" or CREATE_FAILED otherwise; a failed owner insert returns CREATE_FAILED "Failed to add creator as team owner" and deletes the team row again, unless that delete fails too, when the team stays without an owner; every failure carries the datastore's message as `details`; otherwise the team (with the stored slug) and its creator as owner are appended |
| TeamsService.TeamStore.InsertWithOwner | src/lib/services/teams.service.ts:110-130 | the team row is inserted; a failed owner insert returns CREATE_FAILED with the datastore's message and deletes the team again, which a failing delete leaves in place; otherwise the creator is appended as owner |
| TeamsService.TeamStore.GetTeam | src/lib/services/teams.service.ts:137-201 | a failed membership lookup or a non-member gets NOT_FOUND; a failed team lookup or a missing team gets NOT_FOUND "Team not found"; a failed member query gets QUERY_FAILED with the datastore's message; when both lookups succeed with one row each and the member query succeeds, the call succeeds and returns the team, its members in `joined_at` order (a permutation of that team's rows) and `member_count` equal to the list's length |
| TeamsService.TeamStore.InviteMember | src/lib/services/teams.service.ts:207-268 | a failed check, a failed inviter lookup included, is returned with no invitation written; a failed insert gives INVITE_FAILED with the datastore's message; otherwise one invitation is appended with the role downgraded from owner to admin; teams and members never change |
| TeamsService.TeamStore.RemoveMember | src/lib/services/teams.service.ts:274-358 | a failed check, failed lookups included, is returned with the members unchanged; a failed delete gives DELETE_FAILED with the datastore's message; otherwise exactly the target rows are deleted; no owner row is ever removed |
| TeamsService.RollbackRestoresTeams | src/lib/services/teams.service.ts:117-119 | with distinct team ids, the rollback leaves the teams table as it was before the insert |
| TeamsActions.ActionSlug | src/lib/actions/teams.actions.ts:18-21 | every slug the action makes holds only `[a-z0-9-]`, with no "--" and no "-" at either end |
| TeamsActions.ActionSlugIdempotent | src/lib/actions/teams.actions.ts:18-21 | applying the action's slug transform twice is applying it once |
| TeamsActions.SlugTransformsDiffer | src/lib/actions/teams.actions.ts:18-21 | for the name "a.b" the service's slug is "ab" but the action's is "a-b", so the two paths store different slugs for one name |
| TeamsActions.ServiceSlugOfDot | src/lib/services/teams.service.ts:14-22 | the service slugifies "a.b" to "ab" |
| TeamsActions.ActionSlugOfDot | src/lib/actions/teams.actions.ts:18-21 | the action slugifies "a.b" to "a-b" |
| TeamsActions.CreateTeamAction | src/lib/actions/teams.actions.ts:9-41 | no user gives "Not authenticated" and no write; a team insert error returns its message with no write; otherwise the team is appended and the creator's owner row is appended unless that insert fails, whose outcome is ignored |
| TeamsActions.InviteMemberAction | src/lib/actions/teams.actions.ts:43-69 | no user gives "Not authenticated"; an insert error returns its message and writes nothing; otherwise one invitation is appended with the role exactly as given; teams and members never change |
| TeamsActions.RemoveMemberAction | src/lib/actions/teams.actions.ts:71-92 | no user gives "Not authenticated"; a delete error returns its message and deletes nothing; otherwise exactly the rows with that id in that team are deleted, with no role check |
| TeamsActions.ActionsSkipServiceRules | src/lib/actions/teams.actions.ts:71-92 | an owner row that the service refuses to remove with FORBIDDEN "Cannot remove the team owner" is deleted by the action, and an owner invitation the service stores as admin is stored by the action as owner |
| Strings.LessIrreflexive | src/lib/services/events.service.ts:66-67 | no string is below itself in string order |
| Strings.LessAsymmetric | src/lib/services/events.service.ts:66-67 | two strings are never each below the other |
| Strings.LessTransitive | src/lib/services/events.service.ts:66-67 | string order is transitive |
| Strings.LessTotal | src/lib/services/events.service.ts:66-67 | any two distinct strings are ordered one way or the other |
| Strings.LessEqTransitive | src/lib/services/events.service.ts:84-88 | string order with equality is transitive |
| Strings.MaxStr | src/lib/services/events.service.ts:67 | the larger of two strings is one of them and no smaller than either |
| Strings.MinStr | src/lib/services/events.service.ts:66 | the smaller of two strings is one of them and no larger than either |
| Strings.DigitValue | src/lib/rate-limit.ts:112 | a character with a value below 36 is the digit for that value |
| Strings.NatToRadix | src/lib/rate-limit.ts:112 | `n.toString(radix)` is non-empty and made of digits below the radix |
| Strings.RadixRoundTrip | src/lib/rate-limit.ts:112 | reading the printed digits back in that radix gives the number |
| Strings.IntToString | src/lib/rate-limit.ts:117-121 | the decimal text of an integer is never empty |
| Strings.DecimalRoundTrip | src/lib/rate-limit.ts:117-121 | parsing the decimal text of an integer, sign included, gives the integer back |
| Strings.Prefix | src/lib/api-keys.ts:24 | `substring(0, n)` is a prefix of length n, or the whole string when it is shorter |
| Strings.TrimStart | src/lib/services/teams.service.ts:17 | the result is a suffix of the input, every dropped character is white space, and the result starts with no white space |
| Strings.TrimEnd | src/lib/services/teams.service.ts:17 | the result is a prefix of the input, every dropped character is white space, and the result ends with no white space |
| Strings.Trim | src/lib/services/teams.service.ts:17 | the result starts and ends with no white space and is no longer than the input |
| Strings.TrimIsSlice | src/lib/services/teams.service.ts:17 | the trimmed text is the slice of the input that lies between its leading and its trailing white space: it is a prefix of what follows the leading white space, and every character outside the slice is white space |
| Strings.AsciiLower | src/lib/services/teams.service.ts:16 | lower-casing keeps the length, leaves no upper-case ASCII letter and maps each character on its own |
| Sorting.BeforeTotal | src/lib/services/api-keys.service.ts:24 | of two keys, one may always stand before the other |
| Sorting.BeforeTransitive | src/lib/services/api-keys.service.ts:24 | the key order is transitive, ascending or descending |
| Sorting.Insert | src/lib/services/api-keys.service.ts:24 | inserting into a key-sorted list keeps it sorted and adds exactly that record |
| Sorting.SortBy | src/lib/services/api-keys.service.ts:24 | `order(key, {ascending})` gives a permutation of the rows sorted by the key in the asked direction |
| Sorting.InsertReal | plugin-example/lib/reporter.py:115 | inserting into a sorted list of numbers keeps it sorted and adds exactly that number |
| Sorting.SortReals | plugin-example/lib/reporter.py:115 | `sorted(xs)` is a sorted permutation of the numbers |
| Counters.Add | plugin-example/lib/reporter.py:50-61 | `c[k] += n` adds n to the count of k and leaves every other count |
| Counters.TotalOnRemove | plugin-example/lib/reporter.py:50-61 | the sum over a key set is one count plus the sum over the rest |
| Counters.TotalOnAgree | plugin-example/lib/reporter.py:50-61 | two counters that agree on a key set have the same sum over it |
| Counters.TotalAdd | plugin-example/lib/reporter.py:50-61 | `c[k] += n` raises the sum of all counts by n |
| Counters.TotalOfMultiset | plugin-example/lib/reporter.py:50-61 | a counter holding the multiplicities of a multiset sums to its size |
| Json.Member | src/app/api/v1/events/route.ts:12-28 | a field is found iff the value is an object with that key |
| Json.AsString | src/app/api/v1/events/route.ts:12-28 | a string is read iff the value is present and a string |
| Json.AsNumber | src/app/api/v1/events/route.ts:12-28 | a number is read iff the value is present and a number |
| Telemetry.ServerType | plugin-example/lib/telemetry.py:147 | the server's name is never one of the four renamed local names, and equals the local name iff that name is not renamed |
| Telemetry.RenamedTypes | plugin-example/lib/telemetry.py:43-48 | the four renamings, and renaming twice is renaming once |
| Telemetry.HookTypesAccepted | plugin-example/lib/telemetry.py:43-48 | every type a hook writes reaches the server as one of its nine event types, while the four renamed local names would be refused as they are |
| Telemetry.QueueEntry | plugin-example/lib/telemetry.py:145-151 | the queued record keeps timestamp, session, sequence number and data, and carries the renamed type |
| Telemetry.SeqCounter.constructor | plugin-example/lib/telemetry.py:51 | the counter starts at 0 |
| Telemetry.SeqCounter.Next | plugin-example/lib/telemetry.py:79-82 | returns one more than the previous value and stores it |
| Telemetry.SeqCounter.NextTwo | plugin-example/lib/telemetry.py:79-82 | two calls in a row give consecutive, increasing numbers |
| Telemetry.PyPrefix | plugin-example/lib/telemetry.py:95 | Python's `s[:n]`, negative n included, is a prefix of s |
| Telemetry.SanitizeToolInput | plugin-example/lib/telemetry.py:85-96 | None iff the input is null; text within the limit (default 100) is kept; longer text becomes its first `max_chars` characters plus "..."; a negative limit cuts from the end as Python slicing does |
| Telemetry.PreviewIsBounded | plugin-example/lib/telemetry.py:94-96 | with a non-negative limit the preview has at most `max_chars + 3` characters and starts as the text does |
| Telemetry.PreviewIgnoresTail | plugin-example/lib/telemetry.py:94-95 | two inputs whose texts agree on the first `max_chars` characters and are both longer give the same preview |
| Telemetry.SanitizeToolResult | plugin-example/lib/telemetry.py:99-106 | only a `size` is recorded: 0 for null, the string's length, or the length of the JSON text |
| Telemetry.ResultIgnoresContent | plugin-example/lib/telemetry.py:99-106 | two string results of one length are recorded identically |
| Telemetry.Batches | plugin-example/lib/telemetry.py:194-195 | every batch is non-empty and at most `batch_size` long, and all but the last are full |
| Telemetry.BatchesCover | plugin-example/lib/telemetry.py:194-195 | the batches, joined, are the queue, in order |
| Telemetry.Unsent | plugin-example/lib/telemetry.py:202-207 | the events of the failed batches, as many as the events not pushed: what a partial flush should keep |
| Telemetry.FlushFrom | plugin-example/lib/telemetry.py:194-200 | the pushed count never exceeds the queue |
| Telemetry.FlushFromErrors | plugin-example/lib/telemetry.py:194-202 | every event is pushed iff no batch failed, and there are no more error lines than events |
| Telemetry.FlushCounts | plugin-example/lib/telemetry.py:194-202 | `pushed` counts the sent events and never exceeds the queue; all were pushed iff no batch failed; the sent and unsent events together are the queue |
| Telemetry.DivExact | plugin-example/lib/telemetry.py:200 | the batch at offset `k * batch_size` is numbered `k` by `i // batch_size` |
| Telemetry.BatchStep | plugin-example/lib/telemetry.py:194-200 | one iteration: the slice at offset `k * batch_size` is batch `k`, and the rest of the flush is its outcome followed by the flush from the next offset |
| Telemetry.PostBatches | plugin-example/lib/telemetry.py:190-200 | the loop's `total_pushed` and `errors` (one "batch k: message" per failed batch, in order) are exactly the flush's outcome over all batches |
| Telemetry.PushQueue.constructor | plugin-example/lib/telemetry.py:154 | no queue file, no events |
| Telemetry.PushQueue.Enqueue | plugin-example/lib/telemetry.py:143-160 | the renamed event is appended to the queue file, which then exists |
| Telemetry.PushQueue.Flush | plugin-example/lib/telemetry.py:163-213 | no URL or key: skipped, nothing changes; no file: ok with 0 pushed; unreadable file: error, unchanged; empty file: removed; batch size 0 raises; otherwise the batches are posted, the file is removed when all were pushed, rewritten as the events after the first `pushed` when some were, left when none were, and the status is ok, partial or error |
| Telemetry.SuffixRequeuesSentEvent | plugin-example/lib/telemetry.py:204-207 | with batches of one and only the first of two POSTs failing, the rewritten queue holds the delivered event and loses the failed one, while the unsent events are the failed one |
| Telemetry.Merged | plugin-example/lib/telemetry.py:290-293 | the merged entry has the old keys and the new ones, the new values winning and the old kept otherwise |
| Telemetry.SessionIndex.constructor | plugin-example/lib/telemetry.py:283 | an empty index |
| Telemetry.SessionIndex.Update | plugin-example/lib/telemetry.py:279-295 | the session's entry is merged with the data or added; an unreadable file is read as empty, so that its other sessions are lost |
| Telemetry.UpdatesCompose | plugin-example/lib/telemetry.py:290-293 | an update touches only its own session, and two updates merge like one with both records, the later winning |
| Telemetry.LastMatch | plugin-example/lib/telemetry.py:335-336 | the index of the last entry for the tool, None iff there is none |
| Telemetry.RemoveAt | plugin-example/lib/telemetry.py:337 | removing one entry keeps the others in order |
| Telemetry.PopUndoesPush | plugin-example/lib/telemetry.py:312-337 | popping a tool right after pushing it returns that entry and leaves the stack as it was |
| Telemetry.PendingStore.constructor | plugin-example/lib/telemetry.py:302 | no pending files |
| Telemetry.PendingStore.PushPending | plugin-example/lib/telemetry.py:300-319 | appends the entry on top of the session's stack, starting from an empty one when the file is missing or unreadable; other sessions are unchanged |
| Telemetry.PendingStore.PopPending | plugin-example/lib/telemetry.py:322-341 | a missing or unreadable file, or no entry for the tool, gives None and changes nothing; otherwise the last entry for the tool is returned and removed, the rest keeping their order |
| Telemetry.KeptDates | plugin-example/lib/telemetry.py:356-361 | no more dates are kept than there were |
| Telemetry.TelemetryDir.constructor | plugin-example/lib/telemetry.py:350-356 | the directory holds the given events files and pending files |
| Telemetry.TelemetryDir.CleanupOldEvents | plugin-example/lib/telemetry.py:350-372 | keeps exactly the events files dated at or after the cutoff, returns how many it deleted, and keeps exactly the pending files at most a day old |
| Telemetry.KeepDates | plugin-example/lib/telemetry.py:356-361 | the loop keeps the dates KeptDates keeps and counts the rest |
| Telemetry.KeptDatesAppend | plugin-example/lib/telemetry.py:356-361 | one more file adds its date iff it is not below the cutoff |
| Telemetry.KeptDatesStep | plugin-example/lib/telemetry.py:356-361 | the kept dates of one more file of the listing |
| Telemetry.KeptDatesMembers | plugin-example/lib/telemetry.py:359 | a date is kept iff it is listed and not below the cutoff in string order |
| Telemetry.LaterCutoffKeepsLess | plugin-example/lib/telemetry.py:352-359 | a later cutoff keeps no file an earlier one deletes |
| Telemetry.BlockNames | plugin-example/lib/telemetry.py:406-408 | no more names than blocks |
| Telemetry.BlockNamesFail | plugin-example/lib/telemetry.py:406-408 | counting raises iff some `tool_use` block has a name that cannot be a Counter key |
| Telemetry.CountsCompose | plugin-example/lib/telemetry.py:408 | counting two runs of names one after the other counts the joined run |
| Telemetry.CountOneMore | plugin-example/lib/telemetry.py:408 | `tool_counts[name] += 1` counts one more name |
| Telemetry.BlockNamesFailPrefix | plugin-example/lib/telemetry.py:406-408 | once counting raised on a prefix, it raises on the whole list |
| Telemetry.CountStep | plugin-example/lib/telemetry.py:406-408 | one inner iteration: a block without a name changes nothing, one with a hashable name counts it once |
| Telemetry.CountBlocks | plugin-example/lib/telemetry.py:406-408 | succeeds iff no block raises, and then the counts grow by exactly the message's tool names and the total by their number |
| Telemetry.NoLineFailsIff | plugin-example/lib/telemetry.py:392-408 | no line raises in the recursive sense iff no line at any index raises |
| Telemetry.ReadEntry | plugin-example/lib/telemetry.py:396-406 | an entry is skipped iff it is an object whose `type` is not "assistant"; a turn is an assistant entry, and a turn with blocks has them as its message's `content` array |
| Telemetry.CountLine | plugin-example/lib/telemetry.py:393-408 | one line succeeds iff it does not raise; an assistant turn adds one turn and its tool names |
| Telemetry.CountLines | plugin-example/lib/telemetry.py:392-408 | failure implies some line raises; success gives exactly the turns, tool names and per-name counts of the transcript |
| Telemetry.ParseAgentTranscript | plugin-example/lib/telemetry.py:377-416 | a missing file gives `{}`; it raises iff some line raises; otherwise `turns` counts the assistant entries, each name's count is its number of `tool_use` blocks, and `total_tools` is the sum of the counts |
| Reporter.FileEvents | plugin-example/lib/reporter.py:26-32 | a file contributes only events of its own lines, no more than its lines, and stops at the first line that is not JSON |
| Reporter.LoadEvents | plugin-example/lib/reporter.py:16-34 | every loaded event comes from a readable file dated on or after the cutoff |
| Reporter.CleanFileLoadsAll | plugin-example/lib/reporter.py:27-30 | a file whose every line parses contributes all of its events, in order |
| Reporter.BadLineHidesRest | plugin-example/lib/reporter.py:30-32 | a line that is not JSON hides every later event of the same file |
| Reporter.AgentOf | plugin-example/lib/reporter.py:98 | the agent is a non-empty `agent_type`, else a non-empty `agent_name`, else "unknown", and is never empty |
| Reporter.KindOf | plugin-example/lib/reporter.py:80-97 | each of the five branches is taken iff the event type is its name |
| Reporter.ToolOf | plugin-example/lib/reporter.py:81 | a present `tool_name` is used as it is, even empty; an absent one gives "unknown" |
| Reporter.ReasonOf | plugin-example/lib/reporter.py:95 | a present `reason` is used as it is; an absent one gives "unknown" |
| Reporter.AddCounts | plugin-example/lib/reporter.py:103-104 | adding a subagent's tool counts adds them key by key |
| Reporter.SessionIdsAppend | plugin-example/lib/reporter.py:70 | one more event adds its session id to the set |
| Reporter.KindCounts | plugin-example/lib/reporter.py:80-97 | each branch counts exactly the events of its type name |
| Reporter.MinOf | plugin-example/lib/reporter.py:113 | `min(durations)` is a duration no larger than any |
| Reporter.MaxOf | plugin-example/lib/reporter.py:114 | `max(durations)` is a duration no smaller than any |
| Reporter.SumBounds | plugin-example/lib/reporter.py:112 | the sum of n values between lo and hi lies between n times lo and n times hi |
| Reporter.Median | plugin-example/lib/reporter.py:115 | `sorted(d)[len(d) // 2]` is one of the durations |
| Reporter.Mean | plugin-example/lib/reporter.py:112 | `sum(d) / len(d)` lies between the minimum and the maximum |
| Reporter.QuotientBounds | plugin-example/lib/reporter.py:112 | a sum between n times lo and n times hi, divided by n, lies between lo and hi |
| Reporter.ToolStatOf | plugin-example/lib/reporter.py:110-116 | the count is the tool's count; minimum, maximum and median are durations of the list; minimum and maximum bound every duration, the median and the mean |
| Reporter.ToolStats | plugin-example/lib/reporter.py:107-116 | exactly the tools with a non-empty duration list get statistics, each from its count and its durations |
| Reporter.CountCommon | plugin-example/lib/reporter.py:64-79 | one event counts its type, adds its session and, when its timestamp parses, counts its hour and day |
| Reporter.CountToolEnd | plugin-example/lib/reporter.py:80-85 | a `tool_end` counts its tool ("unknown" without a name) and records its duration when present |
| Reporter.CountPrompt | plugin-example/lib/reporter.py:87-92 | a `prompt` counts itself and its word count (0 when absent); a `pre_compact` counts itself |
| Reporter.CountStop | plugin-example/lib/reporter.py:94-95 | a `stop` counts its reason ("unknown" when absent) |
| Reporter.CountSubagent | plugin-example/lib/reporter.py:97-99 | a `subagent_stop` counts its agent |
| Reporter.CountAgentTools | plugin-example/lib/reporter.py:100-104 | a `subagent_stop` with tool counts adds them to its agent's counts |
| Reporter.Aggregate | plugin-example/lib/reporter.py:48-132 | every counter of the report holds, key by key, the number of matching events (types, hours, days, tools, stops, agents, per-agent tool sums), each counter sums to the number of events of its type, the sessions are the distinct ids, and exactly the tools with durations have statistics |
| Reporter.Repeat | plugin-example/lib/reporter.py:196 | `c * n` is n copies of c |
| Reporter.Bar | plugin-example/lib/reporter.py:196 | `"#" * min(count // per, cap)`: only "#", `count // per` of them up to `cap`, and at most `cap` |
| Reporter.BarMonotone | plugin-example/lib/reporter.py:196 | a larger count never draws a shorter bar |
| Reporter.DailyBar | plugin-example/lib/reporter.py:196 | the daily bar has at most 40 marks, and 40 from 200 events on |
| Reporter.HourlyBar | plugin-example/lib/reporter.py:205 | the hourly bar has at most 30 marks, and 30 from 90 events on |
| Reporter.Hour2 | plugin-example/lib/reporter.py:206 | `f"{hour:02d}"` has at least two characters, a leading "0" for one-digit hours |
| Reporter.Section | plugin-example/lib/reporter.py:183-207 | no items give no lines; otherwise the title, a blank line, one line per item in order, and a blank line |
| Reporter.CountSections | plugin-example/lib/reporter.py:183-207 | each of the stop-reason, daily and hourly sections is empty when it has no items, and otherwise carries its title and one line per counted item, in order |
| Reporter.WithStatus | plugin-example/lib/reporter.py:210-211 | exactly the sessions with that status, and no more of them than the index holds; their order is stated by Reporter.WithStatusAppend |
| Reporter.WithStatusAppend | plugin-example/lib/reporter.py:210-211 | the filter keeps index order: a session added at the end is listed after every kept session, and only if it has the status |
| Reporter.RecentEnded | plugin-example/lib/reporter.py:211-224 | at most five ended sessions, all five when there are that many, none more often than in the index, latest `ended_at` first |
| Reporter.RecentAreLatest | plugin-example/lib/reporter.py:212-224 | no ended session left out of the list ended later than one in it |

## Left out

Not modelled, with the reason:
- I/O and the operating system: file reads and writes, `mkdir`, `fcntl.flock`, `os.fork`, the webhook POSTs of `_fire_webhook`, and `urllib`. A file is its parsed contents, and an upload is an outcome parameter. The one exception is a failing `unlink` of an events file in `cleanup_old_events`, which escapes as an exception and is not modelled either.
- Concurrency: overlapping requests, the lost-update race on a session rollup between two batches, several plugin processes sharing one queue, and the per-process scope of `_seq_counter`.
- The `setInterval` timer that runs `MemoryStore.cleanup` every minute. `Cleanup` is an explicit method instead.
- The fire-and-forget `last_used_at` update in `validateApiKey`. It never affects the result.
- Procedures that run in the database (`update_daily_aggregate`, `get_overview_stats`, `get_top_tools`). The model only records the calls made to them, because their bodies are not visible.
- `getOverviewStats` (`src/lib/services/analytics.service.ts:14-38`), because it is one call into such a procedure.
- `listTeams` (`src/lib/services/teams.service.ts:28-73`) and `queryEvents` (`src/lib/services/events.service.ts:156-204`), because they only forward filters and ranges to the datastore.
- The UI components and pages, the auth callback, the supabase clients, `sessions.service.ts` (apart from the window of its `.range` call, `SessionsRoute.Page`), `api-keys.actions.ts`, the analytics routes and the hook scripts: none of them holds logic of its own.
- `html_dashboard`, because it is template substitution.
- The Overview, Tool Usage, Subagent Usage and Active Sessions sections of `text_report`, and the duration text of its Recent Sessions lines, because they are string formatting. Only the bars and the bounded lists are modelled.
- Plugin functions that are only I/O or a clock: `write_event`, `load_config`, `is_enabled`, `load_sessions`, `generate_correlation_id` (it uses `uuid`) and the hook-input reader.
- Floating point: the reporter's durations are reals with exact arithmetic. `round(..., 1)` is not modelled, nor is the heatmap colour ratio.
- Reporter.ToolStatOf: its `avg_ms`, `min_ms`, `max_ms` and `p50_ms` are the unrounded values.
- Reporter.Aggregate: it does not model the key order of the result dictionaries (`most_common()`, `sorted(...items())`, insertion order). It states the counts key by key.
- Sorting.SortBy: it states a sorted permutation, not which way ties are broken. So Reporter.RecentEnded does not fix the order of two ended sessions with the same `ended_at`.
- The clock: the three `Date.now()` reads of one rate-limit check (src/lib/rate-limit.ts:30, 42 and 82) are three parameters (`RateLimit.Clock`). Only RateLimit.RetryAfterBounds assumes that they come in order (`Ordered`); every other member allows any three values.
- EventsService.DurationOf: JavaScript's number conversion of text is modelled for optionally signed decimal literals with an optional fraction, surrounded by white space. Hexadecimal, binary and octal literals, exponents and `Infinity` are read as NaN, and the reals are exact where JavaScript rounds to the nearest double.
- EventsService.Upserted: the session lookup's error is not inspected by the code, so a failed lookup is the same as finding no row. The model takes the lookup to succeed or to fail, not to return some other row.
- Telemetry.PendingStore: a pending file is either unreadable (read as an empty stack, or as no entry on pop) or a JSON list of entry objects. A file that parses as some other JSON value, such as `{}`, would make `stack.append` (plugin-example/lib/telemetry.py:312) or `stack[i].get` (:336) raise; only `push_pending` writes these files, so that case is not modelled.
- ApiMiddleware.TierLimiter: a tier that names an inherited property of an object literal (`InheritedNames`) selects a value that is not a limiter; the call of `.check` on it throws, and the pipeline's catch answers 500. The model gives that 500 directly.
- ApiMiddleware.ResponseHeadersSet: response headers are a map whose keys are compared exactly, where `Headers.set` compares names without regard to case. A handler that sets, say, `x-request-id` keeps it beside the pipeline's `X-Request-ID` in the model.
- ApiResponse: the helpers' default messages (`unauthorized(message = "Unauthorized")` and the rest) are fixed arguments at each call site, not optional parameters.
- ApiResponse.DecodeError: it states only that a decoded body has an `error` member; the full read-back of an encoded envelope is `ApiResponse.ErrorEnvelopeRoundTrip`.
- Telemetry.ParseAgentTranscript: it does not model the key order of `dict(tool_counts.most_common())` (plugin-example/lib/telemetry.py:413). It states the counts name by name.
- ApiMiddleware.ParsePagination: query values are numbers or absent. `parseInt`'s `NaN` for text that is not a number is not modelled.
- EventsRoute.EventIssues: each issue carries zod's issue code (`invalid_type`, `too_small` and so on) in place of zod's message text, so the 400 message of `ApiMiddleware.SchemaRejectionIs400` holds the codes. The number of issues and their field paths follow zod's checks, as far as the schema's own checks go; zod's "unrecognized key" and union details do not arise in this schema.
- EventsRoute.BodySchema: the order zod reports the array-size issue in relation to the element issues is taken to be size first.
- Strings.Less: JavaScript compares strings by UTF-16 code units, and the model compares characters. The two orders differ only when characters outside the Basic Multilingual Plane are involved. `RateLimit.StringHash` likewise reads characters where `charCodeAt` reads code units.
- Strings.AsciiLower: `toLowerCase` is modelled on ASCII letters only. JavaScript also maps a few non-ASCII characters (such as U+0130 and the Kelvin sign U+212A) to ASCII letters, so both slug transforms can differ from the model's on such input.
- Telemetry.ParseAgentTranscript: tool names are counted as JSON values. Python's equal hashing of `True` and `1`, which would make them share a count, is not modelled.
- Telemetry.SanitizeToolInput, Telemetry.PushQueue.Flush: `tool_input_preview_chars` and `push_batch_size` are always integers. Other JSON types in `config.json` are not modelled.
- Reporter: event fields have the types the hook scripts write. A `word_count`, `tool_counts` or `ended_at` of another JSON type, which Python would add, iterate or compare differently or reject, is not modelled.

## Findings

| source | as written | input that shows it | evidently intended | confidence | as-written member | corrected member |
|---|---|---|---|---|---|---|
| plugin-example/lib/telemetry.py:204-207 | after a partial flush the queue is rewritten as `events[total_pushed:]`, the events after the first `pushed` ones | `push_batch_size` 1, a queue `[a, b]`, the POST of batch 0 fails and that of batch 1 succeeds: `pushed` is 1 and the queue becomes `[b]`, so `a` is never sent and `b` is sent again | keep exactly the events of the batches that failed ("keep only unsent events") | not executed | Telemetry.SuffixRequeuesSentEvent (with Telemetry.PushQueue.Flush) | Telemetry.Unsent (with Telemetry.FlushCounts) |
