/** The session list route (src/app/api/v1/sessions/route.ts): the gateway options, the
    query handed to the session service and the `hasMore` flag of the page it returns. The
    service is the parameter `listSessions`; the request's query values are a map. */
module SessionsRoute {
  import opened Wrappers
  import opened Json
  import opened ServiceTypes
  import opened ApiResponse
  import opened ApiMiddleware

  const DefaultLimit: int := 50
  const DefaultOffset: int := 0

  /** The route's gateway options: the `read:sessions` scope and pagination. */
  function Options(): (o: HandlerOptions)
    ensures o.scopes == Some(["read:sessions"]) && o.pagination
    ensures o.bodySchema.None? && o.rateLimitTier.None?
  {
    HandlerOptions(Some(["read:sessions"]), None, true, None)
  }

  /** What the route passes to `listSessions`. */
  datatype SessionQuery = SessionQuery(
    limit: Option<int>, offset: Option<int>, from: Option<string>, to: Option<string>)

  /** `searchParams.get(name) ?? undefined`: an absent value stays absent, a present one
      (even empty) is passed on. */
  function QueryValue(query: map<string, string>, name: string): (r: Option<string>)
    ensures r.Some? <==> name in query
    ensures r.Some? ==> r.value == query[name]
  {
    if name in query then Some(query[name]) else None
  }

  function QueryFor(p: Option<Pagination>, query: map<string, string>): (q: SessionQuery)
    ensures p.Some? ==> q.limit == Some(p.value.limit) && q.offset == Some(p.value.offset)
    ensures p.None? ==> q.limit.None? && q.offset.None?
    ensures q.from == QueryValue(query, "from") && q.to == QueryValue(query, "to")
  {
    SessionQuery(if p.Some? then Some(p.value.limit) else None, if p.Some? then Some(p.value.offset) else None,
                 QueryValue(query, "from"), QueryValue(query, "to"))
  }

  /** The page window the response reports: the pagination values, or 50 and 0. */
  function Window(p: Option<Pagination>): (w: (int, int))
    ensures p.Some? ==> w == (p.value.limit, p.value.offset)
    ensures p.None? ==> w == (DefaultLimit, DefaultOffset)
  {
    if p.Some? then (p.value.limit, p.value.offset) else (DefaultLimit, DefaultOffset)
  }

  /** `offset + limit < total`. */
  predicate HasMore(limit: int, offset: int, total: int) {
    offset + limit < total
  }

  /** The `pagination` object of the response. */
  function PaginationOf(p: Option<Pagination>, total: int): (j: Json)
    ensures var (limit, offset) := Window(p);
            Member(j, "limit") == Some(JNum(limit as real)) && Member(j, "offset") == Some(JNum(offset as real))
            && Member(j, "total") == Some(JNum(total as real))
            && Member(j, "hasMore") == Some(JBool(HasMore(limit, offset, total)))
  {
    var (limit, offset) := Window(p);
    JObj(map["total" := JNum(total as real), "limit" := JNum(limit as real), "offset" := JNum(offset as real),
             "hasMore" := JBool(HasMore(limit, offset, total))])
  }

  /** The route's handler: 400 with the service message on failure, otherwise the page. */
  function Handler(listSessions: (string, SessionQuery) -> ServiceResult<(seq<Json>, int)>,
                   query: map<string, string>, requestId: string, timestamp: string, c: Context): (r: Option<Response>)
    ensures r.Some?
    ensures var res := listSessions(c.userId, QueryFor(c.pagination, query));
            res.Failure? ==> r.value.status == 400 && ErrorOf(r.value) == Some(("BAD_REQUEST", res.error.message))
    ensures var res := listSessions(c.userId, QueryFor(c.pagination, query));
            res.Success? ==>
              r.value.status == 200 && r.value.body.Some? &&
              Member(r.value.body.value, "data") ==
                Some(JObj(map["sessions" := JArr(res.data.0), "pagination" := PaginationOf(c.pagination, res.data.1)]))
  {
    var res := listSessions(c.userId, QueryFor(c.pagination, query));
    if res.Failure? then Some(BadRequestResponse(res.error.message, None, requestId, timestamp))
    else
      Some(SuccessResponse(JObj(map["sessions" := JArr(res.data.0), "pagination" := PaginationOf(c.pagination, res.data.1)]),
                           None, map[], requestId, timestamp))
  }

  /** The window the response reports is the one the service was asked for. */
  lemma EchoedWindowIsRequested(p: Pagination, query: map<string, string>)
    ensures var q := QueryFor(Some(p), query);
            q.limit == Some(Window(Some(p)).0) && q.offset == Some(Window(Some(p)).1)
  {
  }

  /** Under the gateway's pagination, a request without `limit`/`offset` reports 50 and 0, and
      `hasMore` is `offset + limit < total`. */
  lemma DefaultWindow(total: int)
    ensures Window(Some(ParsePagination(None, None))) == (50, 0)
    ensures HasMore(50, 0, total) <==> total > 50
  {
  }

  /** The rows a page holds: those from `offset` up to `offset + limit`, cut at the end. */
  function Page(rows: seq<Json>, limit: nat, offset: nat): (page: seq<Json>)
    ensures |page| <= limit && (offset + limit <= |rows| ==> |page| == limit)
    ensures |page| == 0 || offset + |page| <= |rows|
    ensures forall i :: 0 <= i < |page| ==> page[i] == rows[offset + i]
  {
    var lo := if offset < |rows| then offset else |rows|;
    var hi := if offset + limit < |rows| then offset + limit else |rows|;
    rows[lo..hi]
  }

  /** `hasMore` says exactly that some row comes after the page. */
  lemma HasMoreIffRowsAfterPage(rows: seq<Json>, limit: nat, offset: nat)
    ensures HasMore(limit, offset, |rows|) <==> offset + |Page(rows, limit, offset)| < |rows|
  {
  }

  /** Walking the pages from offset 0 in steps of `limit` ends after ceil(total / limit)
      pages: the last page is the first whose `hasMore` is false. */
  lemma PagesUntilEnd(limit: int, total: int, k: nat)
    requires limit > 0 && total > 0
    ensures (HasMore(limit, k * limit, total) <==> (k + 1) * limit < total)
    ensures (k + 1) * limit >= total && k * limit < total ==> !HasMore(limit, k * limit, total) && (k > 0 ==> HasMore(limit, (k - 1) * limit, total))
  {
  }
}
