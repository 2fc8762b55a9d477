/** Event ingestion (`ingestEvents`, src/lib/services/events.service.ts): one row per event,
    the batch grouped by session, each group merged into the session rollup, and the daily
    aggregate refreshed once per affected date. The tables are fields of `EventStore`; the
    backend's outcomes (the insert's error, the rollup lookups and writes whose errors are
    ignored, database-assigned row ids) and date parsing (`toEpoch`, None for an invalid
    date) are parameters. The sessions table is keyed by (user, session). */
module EventsService {
  import opened Wrappers
  import opened Strings
  import opened Json
  import opened Counters
  import opened EventTypes
  import opened AnalyticsTypes
  import opened ServiceTypes

  // ---------------------------------------------------------------------------
  // Rows of the events table
  // ---------------------------------------------------------------------------

  datatype EventRow = EventRow(
    userId: string, sessionId: string, eventType: EventType, timestamp: string, seqNo: int,
    toolName: Option<Json>, durationMs: Option<int>, data: map<string, Json>)

  /** JavaScript's `Math.round`: halves round up. */
  function JsRound(x: real): (n: int)
    ensures n as real <= x + 0.5 < n as real + 1.0
  {
    (x + 0.5).Floor
  }

  /** `data.tool_name ?? null`: any present, non-null value is kept as it is. */
  function ToolNameOf(data: map<string, Json>): (r: Option<Json>)
    ensures r.Some? <==> "tool_name" in data && data["tool_name"] != JNull
    ensures r.Some? ==> r.value == data["tool_name"]
  {
    if "tool_name" in data && data["tool_name"] != JNull then Some(data["tool_name"]) else None
  }

  // ---------------------------------------------------------------------------
  // `Math.round` converts its argument with ToNumber; NaN and the infinities reach
  // the database as null, so all three are None here.
  // ---------------------------------------------------------------------------

  /** 10^k. */
  function PowTen(k: nat): (p: real)
    ensures p >= 1.0
  {
    if k == 0 then 1.0 else 10.0 * PowTen(k - 1)
  }

  /** The position of the first "." (the length when there is none). */
  function FirstDot(u: string): (k: nat)
    ensures k <= |u| && (k < |u| ==> u[k] == '.') && forall i :: 0 <= i < k ==> u[i] != '.'
    decreases |u|
  {
    if |u| == 0 || u[0] == '.' then 0 else 1 + FirstDot(u[1..])
  }

  /** An unsigned decimal literal, `digits [. [digits]]` or `. digits`, and its value. */
  function UnsignedDecimal(u: string): (r: Option<real>)
    ensures r.Some? ==> r.value >= 0.0
  {
    var k := FirstDot(u);
    if k == |u| then
      (if |u| >= 1 && AllDecimal(u) then Some(RadixValue(u, 10) as real) else None)
    else
      var whole, fraction := u[..k], u[k + 1..];
      if AllDecimal(whole) && AllDecimal(fraction) && |whole| + |fraction| >= 1
      then Some(RadixValue(whole, 10) as real + RadixValue(fraction, 10) as real / PowTen(|fraction|))
      else None
  }

  /** `Number(s)` on text: surrounding white space is ignored, the empty text is 0, and an
      optionally signed decimal literal denotes its value; any other text is NaN (None). */
  function StringNumber(s: string): (r: Option<real>)
  {
    SignedDecimal(Trim(s))
  }

  /** Trimmed text as a number: the empty text is 0, and otherwise an optional sign and an
      unsigned decimal literal. */
  function SignedDecimal(t: string): (r: Option<real>)
  {
    if |t| == 0 then Some(0.0)
    else if t[0] == '-' then
      (var v := UnsignedDecimal(t[1..]); if v.None? then None else Some(-v.value))
    else if t[0] == '+' then UnsignedDecimal(t[1..])
    else UnsignedDecimal(t)
  }

  /** ToNumber of a JSON value. A boolean is 0 or 1; an object is NaN; an array goes through
      its text, `items.join(",")`: the empty array is 0, an array of two or more items holds
      a comma and is NaN, and a one-item array reads its item's text (null prints as "",
      a boolean as text that is no number). */
  function JsNumber(j: Json): (r: Option<real>)
    decreases j
  {
    match j
    case JNull => Some(0.0)
    case JBool(b) => Some(if b then 1.0 else 0.0)
    case JNum(n) => Some(n)
    case JStr(s) => StringNumber(s)
    case JObj(_) => None
    case JArr(items) =>
      if |items| == 0 then Some(0.0)
      else if |items| > 1 || items[0].JBool? then None
      else JsNumber(items[0])
  }

  /** `data.duration_ms != null ? Math.round(data.duration_ms) : null`: absent and null give
      null, and so does a value whose conversion is NaN; any other value is converted and
      rounded. */
  function DurationOf(data: map<string, Json>): (r: Option<int>)
    ensures ("duration_ms" !in data || data["duration_ms"] == JNull) ==> r.None?
    ensures "duration_ms" in data && data["duration_ms"] != JNull ==>
              (r.Some? <==> JsNumber(data["duration_ms"]).Some?) &&
              (r.Some? ==> r.value == JsRound(JsNumber(data["duration_ms"]).value))
  {
    if "duration_ms" !in data || data["duration_ms"] == JNull then None
    else
      var x := JsNumber(data["duration_ms"]);
      if x.None? then None else Some(JsRound(x.value))
  }

  /** Trimming text that starts and ends with something other than white space keeps it. */
  lemma TrimUnpadded(s: string)
    requires |s| > 0 && !IsJsSpace(s[0]) && !IsJsSpace(s[|s| - 1])
    ensures Trim(s) == s
  {
    assert TrimStart(s) == s;
  }

  /** A string of digits reads as the number it denotes. */
  lemma DigitsNumber(t: string)
    requires |t| > 0 && AllDecimal(t)
    ensures UnsignedDecimal(t) == Some(RadixValue(t, 10) as real)
  {
    forall i | 0 <= i < |t| ensures t[i] != '.' {
      assert DigitValue(t[i]) < 10;
    }
    NoDot(t);
  }

  lemma {:induction false} NoDot(u: string)
    requires forall i :: 0 <= i < |u| ==> u[i] != '.'
    ensures FirstDot(u) == |u|
    decreases |u|
  {
    if |u| > 0 {
      NoDot(u[1..]);
    }
  }

  /** A digit is neither white space nor a sign. */
  lemma DigitIsPlain(c: char)
    requires DigitValue(c) < 10
    ensures !IsJsSpace(c) && c != '-' && c != '+'
  {
  }

  /** The decimal text of an integer reads back as that integer: a duration sent as
      `"150"` is stored as 150. */
  lemma IntegerTextNumber(i: int)
    ensures StringNumber(IntToString(i)) == Some(i as real)
  {
    var n: nat := if i < 0 then -i else i;
    var t := NatToString(n);
    RadixRoundTrip(n, 10);
    assert AllDecimal(t);
    if i < 0 {
      assert "-" + t == IntToString(i);
      NegativeDigitsNumber(t);
    } else {
      assert t == IntToString(i);
      DigitsTextNumber(t);
    }
  }

  /** A string of digits, as text, reads as the number it denotes. */
  lemma DigitsTextNumber(t: string)
    requires |t| > 0 && AllDecimal(t)
    ensures StringNumber(t) == Some(RadixValue(t, 10) as real)
  {
    DigitsNumber(t);
    DigitIsPlain(t[0]);
    DigitIsPlain(t[|t| - 1]);
    TrimUnpadded(t);
    assert SignedDecimal(t) == UnsignedDecimal(t);
  }

  /** A "-" and a string of digits read as the negated number. */
  lemma NegativeDigitsNumber(t: string)
    requires |t| > 0 && AllDecimal(t)
    ensures StringNumber("-" + t) == Some(-(RadixValue(t, 10) as real))
  {
    var s := "-" + t;
    DigitsNumber(t);
    DigitIsPlain(t[|t| - 1]);
    assert s[|s| - 1] == t[|t| - 1];
    TrimUnpadded(s);
    NegatedDecimal(s, t, RadixValue(t, 10) as real);
  }

  lemma NegatedDecimal(s: string, t: string, v: real)
    requires s == "-" + t && UnsignedDecimal(t) == Some(v)
    ensures SignedDecimal(s) == Some(-v)
  {
    assert s[0] == '-' && s[1..] == t;
  }

  /** White space before the text, of any kind and length, does not change its number. */
  lemma LeadingSpaceIgnored(w: string, s: string)
    requires AllJsSpace(w)
    ensures StringNumber(w + s) == StringNumber(s)
  {
    TrimStartAfterSpace(w, s);
    SameTrimSameNumber(w + s, s);
  }

  /** The number of a text depends only on its trimmed form. */
  lemma SameTrimSameNumber(a: string, b: string)
    requires Trim(a) == Trim(b)
    ensures StringNumber(a) == StringNumber(b)
  {
  }

  /** A number is rounded, alone or as the one item of an array. */
  lemma DurationOfNumber(n: real)
    ensures DurationOf(map["duration_ms" := JNum(n)]) == Some(JsRound(n))
    ensures DurationOf(map["duration_ms" := JArr([JNum(n)])]) == Some(JsRound(n))
  {
  }

  /** Integer text reads as its integer, and empty text or an empty array as 0. */
  lemma DurationOfText(i: int)
    ensures DurationOf(map["duration_ms" := JStr(IntToString(i))]) == Some(i)
    ensures DurationOf(map["duration_ms" := JStr("")]) == Some(0)
    ensures DurationOf(map["duration_ms" := JArr([])]) == Some(0)
  {
    DurationOfIntegerText(i);
    DurationOfEmpty();
  }

  lemma DurationOfIntegerText(i: int)
    ensures DurationOf(map["duration_ms" := JStr(IntToString(i))]) == Some(i)
  {
    IntegerTextNumber(i);
    RoundWhole(i);
    DurationOfNumberText(IntToString(i), i as real);
  }

  /** Text with a number is stored as that number, rounded. */
  lemma DurationOfNumberText(text: string, v: real)
    requires StringNumber(text) == Some(v)
    ensures DurationOf(map["duration_ms" := JStr(text)]) == Some(JsRound(v))
  {
    DurationOfValue(JStr(text));
  }

  lemma DurationOfEmpty()
    ensures DurationOf(map["duration_ms" := JStr("")]) == Some(0)
    ensures DurationOf(map["duration_ms" := JArr([])]) == Some(0)
  {
    assert Trim("") == "";
    DurationOfValue(JStr(""));
    DurationOfValue(JArr([]));
    RoundWhole(0);
  }

  lemma RoundWhole(i: int)
    ensures JsRound(i as real) == i
  {
  }

  /** The duration of a present, non-null value. */
  lemma DurationOfValue(v: Json)
    requires v != JNull
    ensures DurationOf(map["duration_ms" := v]) == if JsNumber(v).None? then None else Some(JsRound(JsNumber(v).value))
  {
    var m := map["duration_ms" := v];
    assert "duration_ms" in m && m["duration_ms"] == v;
  }

  /** `true` is stored as 1 and `false` as 0. */
  lemma DurationOfBool(b: bool)
    ensures DurationOf(map["duration_ms" := JBool(b)]) == Some(if b then 1 else 0)
  {
  }

  /** An object, text that is no number and an array holding a boolean are NaN: null. */
  lemma DurationOfNaN(o: map<string, Json>, b: bool, x: Json, y: Json)
    ensures DurationOf(map["duration_ms" := JObj(o)]) == None
    ensures DurationOf(map["duration_ms" := JStr("abc")]) == None
    ensures DurationOf(map["duration_ms" := JArr([JBool(b)])]) == None
    ensures DurationOf(map["duration_ms" := JArr([x, y])]) == None
  {
    DurationOfNone(JObj(o));
    DurationOfLetters();
    DurationOfNone(JArr([JBool(b)]));
    DurationOfNone(JArr([x, y]));
  }

  lemma DurationOfLetters()
    ensures DurationOf(map["duration_ms" := JStr("abc")]) == None
  {
    LetterTextNaN("abc");
    DurationOfNone(JStr("abc"));
  }

  /** A present value whose conversion is NaN is stored as null. */
  lemma DurationOfNone(v: Json)
    requires v != JNull && JsNumber(v).None?
    ensures DurationOf(map["duration_ms" := v]) == None
  {
    DurationOfValue(v);
  }

  /** Text that starts with a letter is no number, whatever follows the letter. */
  lemma LetterTextNaN(t: string)
    requires |t| > 0 && 'a' <= t[0] <= 'z'
    ensures StringNumber(t) == None
  {
    assert TrimStart(t) == t;
    TrimEndKeepsFirst(t);
    LetterNoDecimal(Trim(t));
  }

  lemma LetterNoDecimal(r: string)
    requires |r| > 0 && 'a' <= r[0] <= 'z'
    ensures SignedDecimal(r) == None
  {
    var k := FirstDot(r);
    assert k > 0 && r[..k][0] == r[0];
    assert DigitValue(r[0]) >= 10;
  }

  function BuildRow(userId: string, e: IngestEvent): EventRow {
    EventRow(userId, e.sessionId, e.event, e.ts, e.seqNo, ToolNameOf(e.data), DurationOf(e.data), e.data)
  }

  /** Exactly one row per event, in batch order, carrying the event's fields and the caller. */
  function BuildRows(userId: string, events: seq<IngestEvent>): (rows: seq<EventRow>)
    ensures |rows| == |events|
    ensures forall i :: 0 <= i < |rows| ==>
              rows[i].userId == userId && rows[i].sessionId == events[i].sessionId &&
              rows[i].eventType == events[i].event && rows[i].timestamp == events[i].ts &&
              rows[i].seqNo == events[i].seqNo && rows[i].data == events[i].data &&
              rows[i].toolName == ToolNameOf(events[i].data) && rows[i].durationMs == DurationOf(events[i].data)
  {
    seq(|events|, i requires 0 <= i < |events| => BuildRow(userId, events[i]))
  }

  // ---------------------------------------------------------------------------
  // Grouping the batch by session
  // ---------------------------------------------------------------------------

  datatype Group = Group(minTs: string, maxTs: string, eventCount: int, toolCount: int)

  function ToolIncrement(e: IngestEvent): int {
    if e.event.IsTool() then 1 else 0
  }

  /** One step of the grouping loop. */
  function AddEvent(groups: map<string, Group>, e: IngestEvent): map<string, Group> {
    if e.sessionId !in groups then groups[e.sessionId := Group(e.ts, e.ts, 1, ToolIncrement(e))]
    else groups[e.sessionId := WithEvent(groups[e.sessionId], e)]
  }

  /** A session's group once it has seen one more of its events: the bounds widen to take in
      the event's time, and the counts grow by the event. */
  function WithEvent(g: Group, e: IngestEvent): (r: Group)
    ensures LessEq(r.minTs, g.minTs) && LessEq(r.minTs, e.ts) && (r.minTs == g.minTs || r.minTs == e.ts)
    ensures LessEq(g.maxTs, r.maxTs) && LessEq(e.ts, r.maxTs) && (r.maxTs == g.maxTs || r.maxTs == e.ts)
    ensures r.eventCount == g.eventCount + 1
    ensures r.toolCount == g.toolCount + (if e.event.IsTool() then 1 else 0)
  {
    LessTotal(e.ts, g.minTs);
    LessTotal(g.maxTs, e.ts);
    Group(if Less(e.ts, g.minTs) then e.ts else g.minTs,
          if Less(g.maxTs, e.ts) then e.ts else g.maxTs,
          g.eventCount + 1,
          g.toolCount + ToolIncrement(e))
  }

  /** The session map after the whole batch. */
  function Groups(events: seq<IngestEvent>): map<string, Group>
    decreases |events|
  {
    if |events| == 0 then map[] else AddEvent(Groups(events[..|events| - 1]), events[|events| - 1])
  }

  /** `s` with `x` appended unless already present (insertion order of a JavaScript Map or Set). */
  function AddNew(s: seq<string>, x: string): seq<string> {
    if x in s then s else s + [x]
  }

  predicate Distinct(s: seq<string>) {
    forall i, j :: 0 <= i < j < |s| ==> s[i] != s[j]
  }

  /** The session ids in the order the map first saw them. */
  function SessionOrder(events: seq<IngestEvent>): seq<string>
    decreases |events|
  {
    if |events| == 0 then [] else AddNew(SessionOrder(events[..|events| - 1]), events[|events| - 1].sessionId)
  }

  lemma GroupStep(events: seq<IngestEvent>, i: nat)
    requires i < |events|
    ensures Groups(events[..i + 1]) == AddEvent(Groups(events[..i]), events[i])
    ensures SessionOrder(events[..i + 1]) == AddNew(SessionOrder(events[..i]), events[i].sessionId)
  {
    assert events[..i + 1][..i] == events[..i];
  }

  /** The update of an existing group in the grouping loop. */
  method UpdateGroup(g: Group, e: IngestEvent) returns (existing: Group)
    ensures existing == WithEvent(g, e)
  {
    existing := g;
    var isTool := e.event == ToolUse || e.event == ToolResult;
    if Less(e.ts, existing.minTs) {
      existing := existing.(minTs := e.ts);
    }
    if Less(existing.maxTs, e.ts) {
      existing := existing.(maxTs := e.ts);
    }
    existing := existing.(eventCount := existing.eventCount + 1);
    if isTool {
      existing := existing.(toolCount := existing.toolCount + 1);
    }
  }

  method GroupBySession(events: seq<IngestEvent>) returns (groups: map<string, Group>, order: seq<string>)
    ensures groups == Groups(events) && order == SessionOrder(events)
  {
    groups := map[];
    order := [];
    var i := 0;
    while i < |events|
      invariant 0 <= i <= |events|
      invariant groups == Groups(events[..i]) && order == SessionOrder(events[..i])
    {
      GroupStep(events, i);
      SessionOrderMatchesGroups(events[..i]);
      var e := events[i];
      var isTool := e.event == ToolUse || e.event == ToolResult;
      if e.sessionId !in groups {
        groups := groups[e.sessionId := Group(e.ts, e.ts, 1, if isTool then 1 else 0)];
        order := order + [e.sessionId];
      } else {
        var existing := UpdateGroup(groups[e.sessionId], e);
        groups := groups[e.sessionId := existing];
      }
      i := i + 1;
    }
    assert events[..|events|] == events;
  }

  /** The number of events of session `sid`, and of those that are tool events. */
  function CountOf(events: seq<IngestEvent>, sid: string): nat
    decreases |events|
  {
    if |events| == 0 then 0
    else CountOf(events[..|events| - 1], sid) + (if events[|events| - 1].sessionId == sid then 1 else 0)
  }

  function ToolsOf(events: seq<IngestEvent>, sid: string): nat
    decreases |events|
  {
    if |events| == 0 then 0
    else ToolsOf(events[..|events| - 1], sid) +
         (if events[|events| - 1].sessionId == sid && events[|events| - 1].event.IsTool() then 1 else 0)
  }

  /** A session has a group exactly when some event names it, and the group counts that
      session's events and tool events and no others. */
  lemma {:induction false} GroupCounts(events: seq<IngestEvent>, sid: string)
    ensures sid in Groups(events) <==> exists i :: 0 <= i < |events| && events[i].sessionId == sid
    ensures sid in Groups(events) ==>
              Groups(events)[sid].eventCount == CountOf(events, sid) &&
              Groups(events)[sid].toolCount == ToolsOf(events, sid)
    ensures sid !in Groups(events) ==> CountOf(events, sid) == 0 && ToolsOf(events, sid) == 0
    decreases |events|
  {
    if |events| > 0 {
      var prefix := events[..|events| - 1];
      GroupCounts(prefix, sid);
      if sid in Groups(events) && sid !in Groups(prefix) {
        assert events[|events| - 1].sessionId == sid;
      }
      if (exists i :: 0 <= i < |events| && events[i].sessionId == sid) && events[|events| - 1].sessionId != sid {
        var i :| 0 <= i < |events| && events[i].sessionId == sid;
        assert prefix[i].sessionId == sid;
      }
      if exists i :: 0 <= i < |prefix| && prefix[i].sessionId == sid {
        var i :| 0 <= i < |prefix| && prefix[i].sessionId == sid;
        assert events[i].sessionId == sid;
      }
    }
  }

  /** A group's `minTs`/`maxTs` are the smallest and largest timestamps of its session's
      events in string order. */
  lemma {:induction false} GroupBounds(events: seq<IngestEvent>, sid: string)
    requires sid in Groups(events)
    ensures var g := Groups(events)[sid];
            LessEq(g.minTs, g.maxTs) &&
            (forall i :: 0 <= i < |events| && events[i].sessionId == sid ==>
               LessEq(g.minTs, events[i].ts) && LessEq(events[i].ts, g.maxTs)) &&
            (exists i :: 0 <= i < |events| && events[i].sessionId == sid && events[i].ts == g.minTs) &&
            (exists i :: 0 <= i < |events| && events[i].sessionId == sid && events[i].ts == g.maxTs)
    decreases |events|
  {
    var prefix := events[..|events| - 1];
    var e := events[|events| - 1];
    var g := Groups(events)[sid];
    if sid !in Groups(prefix) {
      assert e.sessionId == sid && g == Group(e.ts, e.ts, 1, ToolIncrement(e));
      GroupCounts(prefix, sid);
      forall i | 0 <= i < |prefix|
        ensures events[i].sessionId != sid
      {
        assert prefix[i] == events[i];
      }
      assert events[|events| - 1].ts == g.minTs;
    } else {
      GroupBounds(prefix, sid);
      var p := Groups(prefix)[sid];
      var im :| 0 <= im < |prefix| && prefix[im].sessionId == sid && prefix[im].ts == p.minTs;
      var iM :| 0 <= iM < |prefix| && prefix[iM].sessionId == sid && prefix[iM].ts == p.maxTs;
      assert events[im] == prefix[im] && events[iM] == prefix[iM];
      if e.sessionId == sid {
        LessTotal(e.ts, p.minTs);
        LessTotal(e.ts, p.maxTs);
        forall i | 0 <= i < |events| && events[i].sessionId == sid
          ensures LessEq(g.minTs, events[i].ts) && LessEq(events[i].ts, g.maxTs)
        {
          if i < |prefix| {
            assert prefix[i] == events[i];
            LessEqTransitive(g.minTs, p.minTs, events[i].ts);
            LessEqTransitive(events[i].ts, p.maxTs, g.maxTs);
          }
        }
        LessEqTransitive(g.minTs, p.minTs, p.maxTs);
        LessEqTransitive(g.minTs, p.maxTs, g.maxTs);
      } else {
        assert g == p;
        forall i | 0 <= i < |events| && events[i].sessionId == sid
          ensures LessEq(g.minTs, events[i].ts) && LessEq(events[i].ts, g.maxTs)
        {
          assert i < |prefix| && prefix[i] == events[i];
        }
      }
    }
  }

  /** The per-session event counts, as a counter. */
  function EventCounts(groups: map<string, Group>): map<string, int> {
    map k | k in groups :: groups[k].eventCount
  }

  /** The groups' event counts add up to the batch size. */
  lemma {:induction false} GroupCountsSumToBatch(events: seq<IngestEvent>)
    ensures Total(EventCounts(Groups(events))) == |events|
    decreases |events|
  {
    if |events| > 0 {
      var prefix := events[..|events| - 1];
      var e := events[|events| - 1];
      GroupCountsSumToBatch(prefix);
      var before := EventCounts(Groups(prefix));
      assert EventCounts(Groups(events)) == Add(before, e.sessionId, 1);
      TotalAdd(before, e.sessionId, 1);
    }
  }

  /** The session order lists each grouped session exactly once. */
  lemma {:induction false} SessionOrderMatchesGroups(events: seq<IngestEvent>)
    ensures Distinct(SessionOrder(events))
    ensures forall sid :: sid in SessionOrder(events) <==> sid in Groups(events)
    decreases |events|
  {
    if |events| > 0 {
      SessionOrderMatchesGroups(events[..|events| - 1]);
    }
  }

  // ---------------------------------------------------------------------------
  // Rollups of the sessions table
  // ---------------------------------------------------------------------------

  /** `end - start` in ms when positive; None when not, or when either date is invalid. */
  function Duration(endTs: string, startTs: string, toEpoch: string -> Option<int>): (d: Option<int>)
    ensures d.Some? ==> d.value > 0
    ensures d.Some? <==> toEpoch(endTs).Some? && toEpoch(startTs).Some? && toEpoch(endTs).value > toEpoch(startTs).value
  {
    if toEpoch(endTs).Some? && toEpoch(startTs).Some? && toEpoch(endTs).value - toEpoch(startTs).value > 0
    then Some(toEpoch(endTs).value - toEpoch(startTs).value)
    else None
  }

  /** An existing rollup widened to cover the group (a null or empty end takes the group's). */
  function MergedRollup(existing: SessionSummary, g: Group, toEpoch: string -> Option<int>): (r: SessionSummary)
    ensures LessEq(r.startedAt, existing.startedAt) && LessEq(r.startedAt, g.minTs)
    ensures r.startedAt == existing.startedAt || r.startedAt == g.minTs
    ensures r.endedAt.Some? && LessEq(g.maxTs, r.endedAt.value)
    ensures existing.endedAt.Some? && existing.endedAt.value != "" ==>
              LessEq(existing.endedAt.value, r.endedAt.value) &&
              (r.endedAt.value == existing.endedAt.value || r.endedAt.value == g.maxTs)
    ensures (existing.endedAt.None? || existing.endedAt.value == "") ==> r.endedAt == Some(g.maxTs)
    ensures r.eventCount == Some(existing.eventCount.GetOr(0) + g.eventCount)
    ensures r.toolCount == Some(existing.toolCount.GetOr(0) + g.toolCount)
    ensures r.durationMs == Duration(r.endedAt.value, r.startedAt, toEpoch)
    ensures r.id == existing.id && r.sessionId == existing.sessionId && r.userId == existing.userId
  {
    var newEndedAt :=
      if existing.endedAt.None? || existing.endedAt.value == "" || Less(existing.endedAt.value, g.maxTs)
      then g.maxTs else existing.endedAt.value;
    var newStartedAt := if Less(g.minTs, existing.startedAt) then g.minTs else existing.startedAt;
    LessTotal(g.minTs, existing.startedAt);
    LessTotal(existing.endedAt.GetOr(""), g.maxTs);
    existing.(startedAt := newStartedAt, endedAt := Some(newEndedAt),
              durationMs := Duration(newEndedAt, newStartedAt, toEpoch),
              eventCount := Some(existing.eventCount.GetOr(0) + g.eventCount),
              toolCount := Some(existing.toolCount.GetOr(0) + g.toolCount))
  }

  /** A fresh rollup for a session seen for the first time; `id` is the database's. */
  function NewRollup(id: string, sessionId: string, userId: string, g: Group, toEpoch: string -> Option<int>): (r: SessionSummary)
    ensures r.startedAt == g.minTs && r.endedAt == Some(g.maxTs)
    ensures r.eventCount == Some(g.eventCount) && r.toolCount == Some(g.toolCount)
    ensures r.durationMs == Duration(g.maxTs, g.minTs, toEpoch)
    ensures r.sessionId == sessionId && r.userId == userId
  {
    SessionSummary(id, sessionId, userId, g.minTs, Some(g.maxTs), Duration(g.maxTs, g.minTs, toEpoch),
                   Some(g.eventCount), Some(g.toolCount), None, None, None)
  }

  /** What the sessions table holds after one session's upsert. The lookup's error is not
      read, so a failed lookup takes the insert path; inserting a session the table already
      holds violates its key, and a failed write changes nothing. */
  function Upserted(sessions: map<(string, string), SessionSummary>, userId: string, sid: string, g: Group,
                    toEpoch: string -> Option<int>, newId: string, lookupFails: bool,
                    writeFails: bool): (r: map<(string, string), SessionSummary>)
    ensures r.Keys == if writeFails then sessions.Keys else sessions.Keys + {(userId, sid)}
    ensures !writeFails && (userId, sid) !in sessions ==>
              r[(userId, sid)].sessionId == sid && r[(userId, sid)].userId == userId &&
              r[(userId, sid)].eventCount == Some(g.eventCount)
    ensures !writeFails && !lookupFails && (userId, sid) in sessions ==>
              r[(userId, sid)].eventCount == Some(sessions[(userId, sid)].eventCount.GetOr(0) + g.eventCount)
  {
    if writeFails then sessions
    else if (userId, sid) in sessions then
      (if lookupFails then sessions else sessions[(userId, sid) := MergedRollup(sessions[(userId, sid)], g, toEpoch)])
    else sessions[(userId, sid) := NewRollup(newId, sid, userId, g, toEpoch)]
  }

  /** A lookup that fails for a session the table already holds loses the batch's events for
      that session: its rollup stays as it was. */
  lemma FailedLookupDropsGroup(sessions: map<(string, string), SessionSummary>, userId: string, sid: string, g: Group,
                               toEpoch: string -> Option<int>, newId: string, writeFails: bool)
    requires (userId, sid) in sessions
    ensures Upserted(sessions, userId, sid, g, toEpoch, newId, true, writeFails) == sessions
  {
  }

  /** For a session seen for the first time a failed lookup does no harm: the insert path is
      the one taken anyway. */
  lemma FailedLookupOfNewSession(sessions: map<(string, string), SessionSummary>, userId: string, sid: string,
                                 g: Group, toEpoch: string -> Option<int>, newId: string, writeFails: bool)
    requires (userId, sid) !in sessions
    ensures Upserted(sessions, userId, sid, g, toEpoch, newId, true, writeFails)
            == Upserted(sessions, userId, sid, g, toEpoch, newId, false, writeFails)
  {
  }

  /** The upserts for the sessions of `order`, in that order. */
  function UpsertAll(sessions: map<(string, string), SessionSummary>, userId: string, groups: map<string, Group>,
                     order: seq<string>, toEpoch: string -> Option<int>, rowIdFor: string -> string,
                     lookupFails: string -> bool, writeFails: string -> bool): map<(string, string), SessionSummary>
    decreases |order|
  {
    if |order| == 0 then sessions
    else
      var sid := order[|order| - 1];
      var before := UpsertAll(sessions, userId, groups, order[..|order| - 1], toEpoch, rowIdFor, lookupFails, writeFails);
      if sid in groups then Upserted(before, userId, sid, groups[sid], toEpoch, rowIdFor(sid), lookupFails(sid), writeFails(sid))
      else before
  }

  /** Each listed session gets exactly its own upsert; every other row is untouched. */
  lemma {:induction false} UpsertAllAt(sessions: map<(string, string), SessionSummary>, userId: string,
                                       groups: map<string, Group>, order: seq<string>,
                                       toEpoch: string -> Option<int>, rowIdFor: string -> string,
                                       lookupFails: string -> bool, writeFails: string -> bool, k: (string, string))
    requires forall sid :: sid in order ==> sid in groups
    requires Distinct(order)
    ensures var r := UpsertAll(sessions, userId, groups, order, toEpoch, rowIdFor, lookupFails, writeFails);
            if k.0 == userId && k.1 in order then
              var u := Upserted(sessions, userId, k.1, groups[k.1], toEpoch, rowIdFor(k.1), lookupFails(k.1), writeFails(k.1));
              (k in r <==> k in u) && (k in r ==> r[k] == u[k])
            else (k in r <==> k in sessions) && (k in r ==> r[k] == sessions[k])
    decreases |order|
  {
    if |order| > 0 {
      var prefix, last := order[..|order| - 1], order[|order| - 1];
      DistinctInit(order);
      UpsertAllAt(sessions, userId, groups, prefix, toEpoch, rowIdFor, lookupFails, writeFails, k);
      UpsertedElsewhere(UpsertAll(sessions, userId, groups, prefix, toEpoch, rowIdFor, lookupFails, writeFails),
                        userId, last, groups[last], toEpoch, rowIdFor(last), lookupFails(last), writeFails(last), k);
    }
  }

  /** Dropping the last element keeps a list distinct; the last element is not in the rest. */
  lemma DistinctInit(order: seq<string>)
    requires |order| > 0 && Distinct(order)
    ensures var prefix := order[..|order| - 1];
            Distinct(prefix) && order[|order| - 1] !in prefix &&
            forall x :: x in order <==> x in prefix || x == order[|order| - 1]
  {
    var prefix := order[..|order| - 1];
    forall i, j | 0 <= i < j < |prefix| ensures prefix[i] != prefix[j] {
      assert prefix[i] == order[i] && prefix[j] == order[j];
    }
    forall i | 0 <= i < |prefix| ensures prefix[i] != order[|order| - 1] {
      assert prefix[i] == order[i];
    }
    assert order == prefix + [order[|order| - 1]];
  }

  /** One upsert touches only its own row. */
  lemma UpsertedElsewhere(sessions: map<(string, string), SessionSummary>, userId: string, sid: string, g: Group,
                          toEpoch: string -> Option<int>, newId: string, lookupFails: bool, writeFails: bool,
                          k: (string, string))
    ensures var r := Upserted(sessions, userId, sid, g, toEpoch, newId, lookupFails, writeFails);
            k != (userId, sid) ==> (k in r <==> k in sessions) && (k in r ==> r[k] == sessions[k])
  {
  }

  // ---------------------------------------------------------------------------
  // Affected dates
  // ---------------------------------------------------------------------------

  /** The distinct `ts.substring(0, 10)` values, in first-seen order: never more than the
      events. */
  function AffectedDates(events: seq<IngestEvent>): (dates: seq<string>)
    ensures |dates| <= |events|
    decreases |events|
  {
    if |events| == 0 then [] else AddNew(AffectedDates(events[..|events| - 1]), Prefix(events[|events| - 1].ts, 10))
  }

  /** Adding a missing value keeps a list free of repeats. */
  lemma AddNewDistinct(s: seq<string>, x: string)
    requires Distinct(s)
    ensures Distinct(AddNew(s, x))
  {
    if x !in s {
      var t := s + [x];
      forall i, j | 0 <= i < j < |t| ensures t[i] != t[j] {
        if j == |s| { assert t[i] == s[i]; }
      }
    }
  }

  /** Some event has date `d`. */
  predicate HasDate(events: seq<IngestEvent>, d: string) {
    exists i :: 0 <= i < |events| && Prefix(events[i].ts, 10) == d
  }

  lemma HasDateStep(events: seq<IngestEvent>, d: string)
    requires |events| > 0
    ensures HasDate(events, d) <==> HasDate(events[..|events| - 1], d) || Prefix(events[|events| - 1].ts, 10) == d
  {
    var prefix := events[..|events| - 1];
    if HasDate(prefix, d) {
      var i :| 0 <= i < |prefix| && Prefix(prefix[i].ts, 10) == d;
      assert events[i] == prefix[i];
    }
    if HasDate(events, d) {
      var i :| 0 <= i < |events| && Prefix(events[i].ts, 10) == d;
      if i < |prefix| {
        assert prefix[i] == events[i];
      }
    }
  }

  /** The dates are distinct and are exactly the dates of the events. */
  lemma {:induction false} AffectedDatesExact(events: seq<IngestEvent>)
    ensures Distinct(AffectedDates(events))
    ensures forall d :: d in AffectedDates(events) <==> HasDate(events, d)
    decreases |events|
  {
    if |events| > 0 {
      var prefix := events[..|events| - 1];
      var last := Prefix(events[|events| - 1].ts, 10);
      AffectedDatesExact(prefix);
      AddNewDistinct(AffectedDates(prefix), last);
      forall d ensures d in AffectedDates(events) <==> HasDate(events, d) {
        HasDateStep(events, d);
      }
    }
  }

  method CollectDates(events: seq<IngestEvent>) returns (dates: seq<string>)
    ensures dates == AffectedDates(events)
  {
    dates := [];
    var i := 0;
    while i < |events|
      invariant 0 <= i <= |events|
      invariant dates == AffectedDates(events[..i])
    {
      assert events[..i + 1][..i] == events[..i];
      var date := Prefix(events[i].ts, 10);
      if date !in dates {
        dates := dates + [date];
      }
      i := i + 1;
    }
    assert events[..|events|] == events;
  }

  /** The aggregate refresh calls for `dates`, in order. */
  function AggregateCalls(userId: string, dates: seq<string>): (calls: seq<(string, string)>)
    ensures |calls| == |dates| && forall i :: 0 <= i < |dates| ==> calls[i] == (userId, dates[i])
    decreases |dates|
  {
    if |dates| == 0 then [] else AggregateCalls(userId, dates[..|dates| - 1]) + [(userId, dates[|dates| - 1])]
  }

  // ---------------------------------------------------------------------------
  // The tables and the ingest operation
  // ---------------------------------------------------------------------------

  class EventStore {
    /** The `events` table. */
    var rows: seq<EventRow>
    /** The `sessions` table, one rollup per (user, session). */
    var sessions: map<(string, string), SessionSummary>
    /** The `update_daily_aggregate(user, date)` calls made, in order. */
    var aggregateCalls: seq<(string, string)>

    constructor()
      ensures rows == [] && sessions == map[] && aggregateCalls == []
    {
      rows := [];
      sessions := map[];
      aggregateCalls := [];
    }

    method UpsertSession(userId: string, sid: string, g: Group, toEpoch: string -> Option<int>,
                         newId: string, lookupFails: bool, writeFails: bool)
      modifies this
      ensures sessions == Upserted(old(sessions), userId, sid, g, toEpoch, newId, lookupFails, writeFails)
      ensures rows == old(rows) && aggregateCalls == old(aggregateCalls)
    {
      var found := (userId, sid) in sessions && !lookupFails;
      if writeFails || (!found && (userId, sid) in sessions) {
        return;
      }
      if found {
        sessions := sessions[(userId, sid) := MergedRollup(sessions[(userId, sid)], g, toEpoch)];
      } else {
        sessions := sessions[(userId, sid) := NewRollup(newId, sid, userId, g, toEpoch)];
      }
    }

    /** The rollup upserts, one per grouped session in map order. */
    method UpsertSessions(userId: string, groups: map<string, Group>, order: seq<string>,
                          toEpoch: string -> Option<int>, rowIdFor: string -> string, lookupFails: string -> bool,
                          writeFails: string -> bool)
      modifies this
      ensures sessions == UpsertAll(old(sessions), userId, groups, order, toEpoch, rowIdFor, lookupFails, writeFails)
      ensures rows == old(rows) && aggregateCalls == old(aggregateCalls)
    {
      var i := 0;
      while i < |order|
        invariant 0 <= i <= |order|
        invariant rows == old(rows) && aggregateCalls == old(aggregateCalls)
        invariant sessions == UpsertAll(old(sessions), userId, groups, order[..i], toEpoch, rowIdFor, lookupFails, writeFails)
      {
        assert order[..i + 1][..i] == order[..i];
        var sid := order[i];
        if sid in groups {
          UpsertSession(userId, sid, groups[sid], toEpoch, rowIdFor(sid), lookupFails(sid), writeFails(sid));
        }
        i := i + 1;
      }
      assert order[..|order|] == order;
    }

    /** One `update_daily_aggregate` call per date, in order; the outcomes are not read. */
    method RefreshAggregates(userId: string, dates: seq<string>)
      modifies this
      ensures aggregateCalls == old(aggregateCalls) + AggregateCalls(userId, dates)
      ensures rows == old(rows) && sessions == old(sessions)
    {
      var j := 0;
      while j < |dates|
        invariant 0 <= j <= |dates|
        invariant rows == old(rows) && sessions == old(sessions)
        invariant aggregateCalls == old(aggregateCalls) + AggregateCalls(userId, dates[..j])
      {
        assert dates[..j + 1][..j] == dates[..j];
        aggregateCalls := aggregateCalls + [(userId, dates[j])];
        j := j + 1;
      }
      assert dates[..|dates|] == dates;
    }

    /** `ingestEvents`: the result never depends on the rollup or aggregate writes. */
    method IngestEvents(userId: string, events: seq<IngestEvent>, insertError: Option<DbError>,
                        toEpoch: string -> Option<int>, rowIdFor: string -> string,
                        lookupFails: string -> bool, writeFails: string -> bool) returns (r: ServiceResult<int>)
      modifies this
      ensures |events| == 0 ==> r == Success(0) && unchanged(this)
      ensures |events| > 0 && insertError.Some? ==>
                r == DbFailure("INGEST_FAILED", "Failed to insert events", insertError.value) && unchanged(this)
      ensures |events| > 0 && insertError.None? ==>
                r == Success(|events|) &&
                rows == old(rows) + BuildRows(userId, events) &&
                sessions == UpsertAll(old(sessions), userId, Groups(events), SessionOrder(events), toEpoch, rowIdFor,
                                      lookupFails, writeFails) &&
                aggregateCalls == old(aggregateCalls) + AggregateCalls(userId, AffectedDates(events))
    {
      if |events| == 0 {
        return Success(0);
      }
      var newRows := BuildRows(userId, events);
      if insertError.Some? {
        return DbFailure("INGEST_FAILED", "Failed to insert events", insertError.value);
      }
      rows := rows + newRows;
      var groups, order := GroupBySession(events);
      UpsertSessions(userId, groups, order, toEpoch, rowIdFor, lookupFails, writeFails);
      var dates := CollectDates(events);
      RefreshAggregates(userId, dates);
      r := Success(|newRows|);
    }
  }
}
