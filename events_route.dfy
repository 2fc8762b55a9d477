/** The event ingestion route (src/app/api/v1/events/route.ts): the batch schema as a
    validator over JSON, the route's gateway options and the mapping of the service result
    to a response. zod's ISO-datetime check is the parameter `isDatetime`; the ingest service
    is the parameter `ingest`. */
module EventsRoute {
  import opened Wrappers
  import opened Strings
  import opened Json
  import opened EventTypes
  import opened ServiceTypes
  import opened ApiResponse
  import opened ApiKeys
  import opened ApiScopes
  import opened RateLimit
  import opened ApiMiddleware

  const MaxBatch: nat := 1000

  /** `seq: z.number().int().min(0)`. */
  predicate IsSeqNumber(j: Json) {
    j.JNum? && j.n == j.n.Floor as real && j.n >= 0.0
  }

  /** `eventSchema`: an object with an offset-bearing datetime `ts`, an event name from the
      nine-value enum, a non-empty `session_id`, a natural `seq`, and `data` that is a record
      when present. Other members are ignored. */
  predicate ValidEvent(j: Json, isDatetime: string -> bool) {
    var ts := AsString(Member(j, "ts"));
    var event := AsString(Member(j, "event"));
    var sid := AsString(Member(j, "session_id"));
    var seqNo := Member(j, "seq");
    var data := Member(j, "data");
    ts.Some? && isDatetime(ts.value)
    && event.Some? && ParseEventType(event.value).Some?
    && sid.Some? && |sid.value| >= 1
    && seqNo.Some? && IsSeqNumber(seqNo.value)
    && (data.None? || data.value.JObj?)
  }

  /** The event a valid input object denotes; a missing `data` is the empty record. */
  function EventOf(j: Json, isDatetime: string -> bool): (e: IngestEvent)
    requires ValidEvent(j, isDatetime)
    ensures Member(j, "ts") == Some(JStr(e.ts)) && isDatetime(e.ts)
    ensures Member(j, "event") == Some(JStr(e.event.Name()))
    ensures Member(j, "session_id") == Some(JStr(e.sessionId)) && e.sessionId != ""
    ensures Member(j, "seq") == Some(JNum(e.seqNo as real)) && e.seqNo >= 0
    ensures Member(j, "data").None? ==> e.data == map[]
    ensures Member(j, "data").Some? ==> Member(j, "data") == Some(JObj(e.data))
  {
    var event := ParseEventType(AsString(Member(j, "event")).value).value;
    var n := Member(j, "seq").value.n;
    var data := Member(j, "data");
    IngestEvent(AsString(Member(j, "ts")).value, event, AsString(Member(j, "session_id")).value,
                n.Floor, if data.None? then map[] else data.value.fields)
  }

  /** The object zod outputs for an event: exactly the five schema members. */
  function EncodeEvent(e: IngestEvent): Json {
    JObj(map["ts" := JStr(e.ts), "event" := JStr(e.event.Name()), "session_id" := JStr(e.sessionId),
             "seq" := JNum(e.seqNo as real), "data" := JObj(e.data)])
  }

  /** The handler's reading of a parsed event object. */
  function ReadEvent(j: Json): (r: Option<IngestEvent>)
    ensures r.Some? ==> Member(j, "session_id") == Some(JStr(r.value.sessionId))
  {
    var ts := AsString(Member(j, "ts"));
    var event := AsString(Member(j, "event"));
    var sid := AsString(Member(j, "session_id"));
    var seqNo := AsNumber(Member(j, "seq"));
    var data := Member(j, "data");
    if ts.Some? && event.Some? && ParseEventType(event.value).Some? && sid.Some? && seqNo.Some?
       && data.Some? && data.value.JObj?
    then Some(IngestEvent(ts.value, ParseEventType(event.value).value, sid.value, seqNo.value.Floor, data.value.fields))
    else None
  }

  /** What the schema outputs is what the handler reads back. */
  lemma EventRoundTrip(e: IngestEvent)
    ensures ReadEvent(EncodeEvent(e)) == Some(e)
  {
    EventTypeNamesRoundTrip(e.event);
  }

  /** `bodySchema`'s acceptance: an object whose `events` is an array of 1 to 1000 valid
      events. */
  predicate ValidBody(j: Json, isDatetime: string -> bool) {
    var events := Member(j, "events");
    events.Some? && events.value.JArr? && 1 <= |events.value.items| <= MaxBatch
    && forall i :: 0 <= i < |events.value.items| ==> ValidEvent(events.value.items[i], isDatetime)
  }

  /** The normalised event objects of a batch whose every element is valid. */
  function NormalisedEvents(items: seq<Json>, isDatetime: string -> bool): (r: seq<Json>)
    requires forall i :: 0 <= i < |items| ==> ValidEvent(items[i], isDatetime)
    ensures |r| == |items| && forall i :: 0 <= i < |items| ==> r[i] == EncodeEvent(EventOf(items[i], isDatetime))
  {
    seq(|items|, i requires 0 <= i < |items| && ValidEvent(items[i], isDatetime) => EncodeEvent(EventOf(items[i], isDatetime)))
  }

  // ---------------------------------------------------------------------------
  // zod's issues: one per failed check, at the path of the value that failed it
  // ---------------------------------------------------------------------------

  /** The zod issue codes the schemas can report. An issue carries its code where zod puts
      the default message for that code. */
  const InvalidType := "invalid_type"
  const InvalidString := "invalid_string"
  const InvalidEnumValue := "invalid_enum_value"
  const TooSmall := "too_small"
  const TooBig := "too_big"

  /** A string member with one further check `ok` (datetime, enum, minimum length): a missing
      or non-string value is an `invalid_type` issue, a string failing `ok` one with `code`. */
  function StringIssues(v: Option<Json>, path: seq<string>, ok: string -> bool, code: string): (r: seq<Issue>)
    ensures |r| == 0 <==> AsString(v).Some? && ok(AsString(v).value)
    ensures |r| <= 1 && forall k :: 0 <= k < |r| ==> r[k].path == path
  {
    if AsString(v).None? then [Issue(path, InvalidType)]
    else if ok(AsString(v).value) then []
    else [Issue(path, code)]
  }

  /** `z.number().int().min(0)`: a missing or non-number value is a type issue; a number runs
      both checks, so a negative fraction gets two issues. */
  function SeqIssues(v: Option<Json>, path: seq<string>): (r: seq<Issue>)
    ensures |r| == 0 <==> v.Some? && IsSeqNumber(v.value)
    ensures |r| <= 2 && forall k :: 0 <= k < |r| ==> r[k].path == path
  {
    if v.None? || !v.value.JNum? then [Issue(path, InvalidType)]
    else
      (if v.value.n == v.value.n.Floor as real then [] else [Issue(path, InvalidType)])
      + (if v.value.n >= 0.0 then [] else [Issue(path, TooSmall)])
  }

  /** `z.record(...).default({})`: an absent member takes the default; anything but an object
      is a type issue. */
  function DataIssues(v: Option<Json>, path: seq<string>): (r: seq<Issue>)
    ensures |r| == 0 <==> v.None? || v.value.JObj?
    ensures |r| <= 1 && forall k :: 0 <= k < |r| ==> r[k].path == path
  {
    if v.None? || v.value.JObj? then [] else [Issue(path, InvalidType)]
  }

  /** `eventSchema`'s issues for the value `j` at `path`: one type issue when `j` is not an
      object, otherwise the issues of the five members in the schema's order, each at the
      member's own path. */
  function ElementIssues(j: Json, isDatetime: string -> bool, path: seq<string>): (r: seq<Issue>)
    ensures |r| == 0 <==> ValidEvent(j, isDatetime)
    ensures !j.JObj? ==> r == [Issue(path, InvalidType)]
    ensures forall k :: 0 <= k < |r| ==> |path| <= |r[k].path| && r[k].path[..|path|] == path
  {
    if !j.JObj? then [Issue(path, InvalidType)]
    else
      var r := StringIssues(Member(j, "ts"), path + ["ts"], isDatetime, InvalidString)
        + StringIssues(Member(j, "event"), path + ["event"], s => ParseEventType(s).Some?, InvalidEnumValue)
        + StringIssues(Member(j, "session_id"), path + ["session_id"], s => |s| >= 1, TooSmall)
        + SeqIssues(Member(j, "seq"), path + ["seq"])
        + DataIssues(Member(j, "data"), path + ["data"]);
      assert forall k :: 0 <= k < |r| ==> exists f :: r[k].path == path + [f];
      r
  }

  /** One element can give several issues: an empty object misses the four required members,
      each reported at its own path. */
  lemma EmptyObjectIssues(isDatetime: string -> bool, path: seq<string>)
    ensures ElementIssues(JObj(map[]), isDatetime, path) ==
            [Issue(path + ["ts"], InvalidType), Issue(path + ["event"], InvalidType),
             Issue(path + ["session_id"], InvalidType), Issue(path + ["seq"], InvalidType)]
  {
  }

  /** A negative fraction as `seq` fails both number checks. */
  lemma NegativeFractionSeqIssues(path: seq<string>)
    ensures SeqIssues(Some(JNum(-0.5)), path) == [Issue(path, InvalidType), Issue(path, TooSmall)]
  {
    assert (-0.5).Floor == -1;
  }

  /** The path of array element `i` of `events`. */
  function ElementPath(i: int): seq<string> {
    ["events", IntToString(i)]
  }

  /** The issues of the elements of `items`, in order, each element's at its own path; there
      is none exactly when no element has any. */
  function IssuesAt(items: seq<Json>, elementIssues: (Json, seq<string>) -> seq<Issue>): seq<Issue>
    decreases |items|
  {
    if |items| == 0 then []
    else
      var last := |items| - 1;
      IssuesAt(items[..last], elementIssues) + elementIssues(items[last], ElementPath(last))
  }

  /** There is no issue exactly when no element has any. */
  lemma {:induction false} IssuesAtNone(items: seq<Json>, elementIssues: (Json, seq<string>) -> seq<Issue>)
    ensures |IssuesAt(items, elementIssues)| == 0 <==>
            forall i :: 0 <= i < |items| ==> |elementIssues(items[i], ElementPath(i))| == 0
    decreases |items|
  {
    if |items| > 0 {
      var last := |items| - 1;
      var before := IssuesAt(items[..last], elementIssues);
      var own := elementIssues(items[last], ElementPath(last));
      assert IssuesAt(items, elementIssues) == before + own;
      IssuesAtNone(items[..last], elementIssues);
      if forall i :: 0 <= i < |items| ==> |elementIssues(items[i], ElementPath(i))| == 0 {
        forall i | 0 <= i < last
          ensures |elementIssues(items[..last][i], ElementPath(i))| == 0
        {
          assert items[..last][i] == items[i];
        }
        assert |before| == 0;
        assert |own| == 0;
        assert |before + own| == 0;
      } else {
        var i :| 0 <= i < |items| && |elementIssues(items[i], ElementPath(i))| != 0;
        if i < last {
          assert items[..last][i] == items[i];
          assert |elementIssues(items[..last][i], ElementPath(i))| != 0;
          assert |before| != 0;
        } else {
          assert |own| != 0;
        }
        assert |before + own| != 0;
      }
    }
  }

  /** Each issue is an issue of some element, at that element's path. */
  lemma {:induction false} IssuesAtFromElements(items: seq<Json>, elementIssues: (Json, seq<string>) -> seq<Issue>, k: int)
    requires 0 <= k < |IssuesAt(items, elementIssues)|
    ensures exists i :: 0 <= i < |items| && IssuesAt(items, elementIssues)[k] in elementIssues(items[i], ElementPath(i))
    decreases |items|
  {
    var last := |items| - 1;
    var before := IssuesAt(items[..last], elementIssues);
    var own := elementIssues(items[last], ElementPath(last));
    assert IssuesAt(items, elementIssues) == before + own;
    if k < |before| {
      IssuesAtFromElements(items[..last], elementIssues, k);
      var i :| 0 <= i < last && before[k] in elementIssues(items[..last][i], ElementPath(i));
      assert items[..last][i] == items[i];
    } else {
      assert IssuesAt(items, elementIssues)[k] == own[k - |before|];
    }
  }

  /** Every issue of every element is among them. */
  lemma {:induction false} ElementIssuesKept(items: seq<Json>, elementIssues: (Json, seq<string>) -> seq<Issue>, i: int, n: int)
    requires 0 <= i < |items| && 0 <= n < |elementIssues(items[i], ElementPath(i))|
    ensures elementIssues(items[i], ElementPath(i))[n] in IssuesAt(items, elementIssues)
    decreases |items|
  {
    var last := |items| - 1;
    var before := IssuesAt(items[..last], elementIssues);
    var own := elementIssues(items[last], ElementPath(last));
    assert IssuesAt(items, elementIssues) == before + own;
    var x := elementIssues(items[i], ElementPath(i))[n];
    if i < last {
      assert items[..last][i] == items[i];
      ElementIssuesKept(items[..last], elementIssues, i, n);
    } else {
      assert x == own[n];
    }
    InEitherPart(IssuesAt(items, elementIssues), before, own, x);
  }

  lemma InEitherPart<T>(whole: seq<T>, before: seq<T>, own: seq<T>, x: T)
    requires whole == before + own && (x in before || x in own)
    ensures x in whole
  {
  }

  /** The issues `eventSchema` reports for the elements of the array: none exactly when every
      element is a valid event, and each at the path of an invalid element. */
  function EventIssues(items: seq<Json>, isDatetime: string -> bool): (r: seq<Issue>)
    ensures |r| == 0 <==> forall i :: 0 <= i < |items| ==> ValidEvent(items[i], isDatetime)
    ensures forall k :: 0 <= k < |r| ==> 2 <= |r[k].path| && r[k].path[0] == "events"
    ensures forall k :: 0 <= k < |r| ==>
              exists i :: 0 <= i < |items| && !ValidEvent(items[i], isDatetime) &&
                          2 <= |r[k].path| && r[k].path[..2] == ElementPath(i)
  {
    var elementIssues := (j, p) => ElementIssues(j, isDatetime, p);
    var r := IssuesAt(items, elementIssues);
    IssuesAtNone(items, elementIssues);
    forall k | 0 <= k < |r|
      ensures 2 <= |r[k].path| && r[k].path[0] == "events"
      ensures exists i :: 0 <= i < |items| && !ValidEvent(items[i], isDatetime) &&
                          2 <= |r[k].path| && r[k].path[..2] == ElementPath(i)
    {
      IssuesAtFromElements(items, elementIssues, k);
      var i :| 0 <= i < |items| && r[k] in elementIssues(items[i], ElementPath(i));
      IssueOfElement(items[i], isDatetime, i, r[k]);
    }
    r
  }

  /** An issue of element `i` lies under that element's path, and the element is invalid. */
  lemma IssueOfElement(j: Json, isDatetime: string -> bool, i: int, x: Issue)
    requires x in ElementIssues(j, isDatetime, ElementPath(i))
    ensures !ValidEvent(j, isDatetime)
    ensures 2 <= |x.path| && x.path[..2] == ElementPath(i) && x.path[0] == "events"
  {
    var own := ElementIssues(j, isDatetime, ElementPath(i));
    var n :| 0 <= n < |own| && own[n] == x;
    assert x.path[..2] == ElementPath(i);
    assert x.path[0] == x.path[..2][0];
  }

  /** Every invalid element is reported at its own path. */
  lemma InvalidElementReported(items: seq<Json>, isDatetime: string -> bool, i: int)
    requires 0 <= i < |items| && !ValidEvent(items[i], isDatetime)
    ensures exists k :: 0 <= k < |EventIssues(items, isDatetime)| &&
              2 <= |EventIssues(items, isDatetime)[k].path| && EventIssues(items, isDatetime)[k].path[..2] == ElementPath(i)
  {
    var r := EventIssues(items, isDatetime);
    var elementIssues := (j, p) => ElementIssues(j, isDatetime, p);
    assert r == IssuesAt(items, elementIssues);
    var own := ElementIssues(items[i], isDatetime, ElementPath(i));
    assert own == elementIssues(items[i], ElementPath(i));
    ElementIssuesKept(items, elementIssues, i, 0);
    assert own[0] in r;
    var k :| 0 <= k < |r| && r[k] == own[0];
  }

  /** `bodySchema.safeParse`: the normalised batch when valid, otherwise zod's issues: one at
      the root for a body that is not an object, one at `events` for a missing or non-array
      `events`, else a size issue at `events` (if any) followed by the elements' issues. */
  function BodySchema(isDatetime: string -> bool, j: Json): (r: SchemaResult)
    ensures r.Parsed? <==> ValidBody(j, isDatetime)
    ensures r.Rejected? ==> |r.issues| > 0
    ensures !j.JObj? ==> r == Rejected([Issue([], InvalidType)])
    ensures j.JObj? && (Member(j, "events").None? || !Member(j, "events").value.JArr?) ==>
              r == Rejected([Issue(["events"], InvalidType)])
    ensures r.Rejected? && j.JObj? ==> forall k :: 0 <= k < |r.issues| ==> 1 <= |r.issues[k].path| && r.issues[k].path[0] == "events"
    ensures r.Parsed? ==>
              var items := Member(j, "events").value.items;
              r.data == JObj(map["events" := JArr(NormalisedEvents(items, isDatetime))])
  {
    var events := Member(j, "events");
    if !j.JObj? then Rejected([Issue([], InvalidType)])
    else if events.None? || !events.value.JArr? then Rejected([Issue(["events"], InvalidType)])
    else
      var items := events.value.items;
      var sizeIssues := if |items| < 1 then [Issue(["events"], TooSmall)]
                        else if |items| > MaxBatch then [Issue(["events"], TooBig)]
                        else [];
      var issues := sizeIssues + EventIssues(items, isDatetime);
      if |issues| > 0 then Rejected(issues)
      else Parsed(JObj(map["events" := JArr(NormalisedEvents(items, isDatetime))]))
  }

  /** Reads every element of a parsed array, failing when any element does not read. */
  function ReadEvents(items: seq<Json>): (r: Option<seq<IngestEvent>>)
    ensures r.Some? ==> |r.value| == |items| && forall i :: 0 <= i < |items| ==> ReadEvent(items[i]) == Some(r.value[i])
    decreases |items|
  {
    if |items| == 0 then Some([])
    else
      var last := |items| - 1;
      var before := ReadEvents(items[..last]);
      var e := ReadEvent(items[last]);
      if before.None? || e.None? then None else Some(before.value + [e.value])
  }

  /** `body.events` as the handler sees it. */
  function BodyEvents(body: Option<Json>): Option<seq<IngestEvent>> {
    if body.None? then None
    else
      var events := Member(body.value, "events");
      if events.None? || !events.value.JArr? then None else ReadEvents(events.value.items)
  }

  /** The JSON array elements of a batch of events, one per event. */
  function EncodeAll(es: seq<IngestEvent>): (items: seq<Json>)
    ensures |items| == |es| && forall i :: 0 <= i < |es| ==> items[i] == EncodeEvent(es[i])
  {
    seq(|es|, i requires 0 <= i < |es| => EncodeEvent(es[i]))
  }

  /** An array whose every element reads as the matching event reads as those events. */
  lemma {:induction false} ReadEventsAll(items: seq<Json>, es: seq<IngestEvent>)
    requires |items| == |es| && forall i :: 0 <= i < |items| ==> ReadEvent(items[i]) == Some(es[i])
    ensures ReadEvents(items) == Some(es)
    decreases |items|
  {
    if |items| > 0 {
      var last := |items| - 1;
      var init, prefix := items[..last], es[..last];
      forall i | 0 <= i < last ensures ReadEvent(init[i]) == Some(prefix[i]) {
        assert init[i] == items[i] && prefix[i] == es[i];
      }
      ReadEventsAll(init, prefix);
      assert prefix + [es[last]] == es;
    }
  }

  /** Reading back the encoding of a batch gives the batch. */
  lemma ReadEncoded(es: seq<IngestEvent>)
    ensures ReadEvents(EncodeAll(es)) == Some(es)
  {
    var items := EncodeAll(es);
    forall i | 0 <= i < |items| ensures ReadEvent(items[i]) == Some(es[i]) {
      EventRoundTrip(es[i]);
    }
    ReadEventsAll(items, es);
  }

  /** The handler sees exactly the events of an accepted body, in order, each with the fields
      the client sent and `data` defaulted to the empty record. */
  lemma AcceptedBodyReachesHandler(isDatetime: string -> bool, j: Json)
    requires ValidBody(j, isDatetime)
    ensures var items := Member(j, "events").value.items;
            BodyEvents(Some(BodySchema(isDatetime, j).data)) == Some(seq(|items|, i requires 0 <= i < |items| => EventOf(items[i], isDatetime)))
  {
    var items := Member(j, "events").value.items;
    var es := seq(|items|, i requires 0 <= i < |items| => EventOf(items[i], isDatetime));
    assert NormalisedEvents(items, isDatetime) == EncodeAll(es);
    ReadEncoded(es);
  }

  /** An accepted batch holds between 1 and 1000 events, each with a non-empty session id
      and a natural sequence number. */
  lemma AcceptedBatchBounds(isDatetime: string -> bool, j: Json)
    requires ValidBody(j, isDatetime)
    ensures var es := BodyEvents(Some(BodySchema(isDatetime, j).data));
            es.Some? && 1 <= |es.value| <= MaxBatch &&
            forall i :: 0 <= i < |es.value| ==> es.value[i].sessionId != "" && es.value[i].seqNo >= 0
  {
    AcceptedBodyReachesHandler(isDatetime, j);
  }

  /** The route's gateway options: the `write:events` scope, the body schema and the
      ingestion tier. */
  function Options(isDatetime: string -> bool): (o: HandlerOptions)
    ensures o.scopes == Some(["write:events"]) && o.rateLimitTier == Some("ingestion") && !o.pagination
    ensures o.bodySchema.Some? && forall j :: o.bodySchema.value(j) == BodySchema(isDatetime, j)
  {
    HandlerOptions(Some(["write:events"]), Some(j => BodySchema(isDatetime, j)), false, Some("ingestion"))
  }

  /** Every accepted key is counted by the ingestion limiter, whatever its own tier. */
  lemma RouteUsesIngestionLimiter(isDatetime: string -> bool, key: StoredKey, userId: string, scopes: seq<string>)
    ensures LimiterOf(Options(isDatetime), Valid(key, userId, scopes)) == Some(IngestionLimiter)
  {
  }

  /** A key lacking `write:events` (and not `admin`) is refused by the scope stage. */
  lemma RouteNeedsWriteEvents(isDatetime: string -> bool, key: StoredKey, userId: string, scopes: seq<string>)
    ensures ScopeError(Options(isDatetime), Valid(key, userId, scopes)).Some?
            <==> "write:events" !in scopes && "admin" !in scopes
  {
  }

  /** A write request whose batch fails the schema is answered 400 after the limiter, and
      the handler never runs. */
  lemma InvalidBatchIs400(isDatetime: string -> bool, request: Request, v: Validation,
                          handler: Context -> Option<Response>, rl: RateLimitResult, ids: Ids)
    requires v.Valid? && HasBody(request.verb) && request.body.Some?
    requires !ValidBody(request.body.value, isDatetime)
    ensures AfterLimiter(Options(isDatetime), request, v, handler, rl, ids).status == 400
  {
    SchemaRejectionIs400(Options(isDatetime), request, v, handler, rl, ids);
  }

  /** The service result as a response: 400 with the service message on failure, 201 with
      the service data on success. */
  function IngestResponse(r: ServiceResult<int>, requestId: string, timestamp: string): (resp: Response)
    ensures r.Failure? ==> resp.status == 400 && ErrorOf(resp) == Some(("BAD_REQUEST", r.error.message))
    ensures r.Success? ==>
              resp.status == 201 && resp.body.Some? &&
              Member(resp.body.value, "data") == Some(JObj(map["inserted" := JNum(r.data as real)]))
  {
    if r.Failure? then BadRequestResponse(r.error.message, None, requestId, timestamp)
    else SuccessResponse(JObj(map["inserted" := JNum(r.data as real)]), Some(201), map[], requestId, timestamp)
  }

  /** The route's handler: reads `body.events` and `userId` from the context and hands them
      to the ingest service. A body without readable events makes the service throw. */
  function Handler(ingest: (string, seq<IngestEvent>) -> ServiceResult<int>, requestId: string, timestamp: string,
                   c: Context): (r: Option<Response>)
    ensures BodyEvents(c.body).Some? ==> r == Some(IngestResponse(ingest(c.userId, BodyEvents(c.body).value), requestId, timestamp))
    ensures BodyEvents(c.body).None? ==> r.None?
  {
    var es := BodyEvents(c.body);
    if es.None? then None else Some(IngestResponse(ingest(c.userId, es.value), requestId, timestamp))
  }
}
