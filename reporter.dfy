/** The plugin's reporting engine (plugin-example/lib/reporter.py): loading the recent events
    files, the counter-based aggregation of events, the per-tool duration statistics and the
    bounded bars and lists of the text report.

    An event's fields are read as the hooks write them: `data` holds the few keys the
    aggregation looks at, each None when absent. `datetime.fromisoformat` is the parameter
    `parseIso`, giving the hour and the `%Y-%m-%d` date of a timestamp it accepts. */
module Reporter {
  import opened Wrappers
  import opened Strings
  import opened Json
  import Counters
  import Sorting

  // ---------------------------------------------------------------------------
  // Events and loading
  // ---------------------------------------------------------------------------

  datatype ReportData = ReportData(
    toolName: Option<string>, durationMs: Option<real>, wordCount: Option<int>,
    reason: Option<string>, agentType: Option<string>, agentName: Option<string>,
    toolCounts: map<string, int>)

  /** An event with `e.get(key, "")` applied to its top-level fields. */
  datatype ReportEvent = ReportEvent(event: string, sessionId: string, ts: string, data: ReportData)

  /** A line of an events file: blank once stripped, not JSON, or an event. */
  datatype EventLine = BlankLine | BadLine | EventLine(e: ReportEvent)

  /** An `events-<date>.jsonl` file: its date, whether it can be read, and its lines. */
  datatype EventFile = EventFile(date: string, readable: bool, lines: seq<EventLine>)

  /** The events a file contributes: its events up to the first line that is not JSON, where
      `json.loads` raises and the rest of the file is skipped. */
  function FileEvents(lines: seq<EventLine>): (r: seq<ReportEvent>)
    ensures forall e :: e in r ==> EventLine(e) in lines
    ensures |r| <= |lines|
    decreases |lines|
  {
    if |lines| == 0 then []
    else if lines[0].BadLine? then []
    else (if lines[0].EventLine? then [lines[0].e] else []) + FileEvents(lines[1..])
  }

  /** `load_events`: the events of the files, in the order given (sorted by name), whose date
      is not below the cutoff date. */
  function LoadEvents(files: seq<EventFile>, cutoff: string): (r: seq<ReportEvent>)
    ensures forall e :: e in r ==>
              exists f :: f in files && !Less(f.date, cutoff) && f.readable && EventLine(e) in f.lines
    decreases |files|
  {
    if |files| == 0 then []
    else
      var f := files[0];
      (if Less(f.date, cutoff) || !f.readable then [] else FileEvents(f.lines)) + LoadEvents(files[1..], cutoff)
  }

  /** Files dated before the cutoff, or unreadable, add nothing; a file on or after it that
      parses throughout adds all of its events, in order. */
  lemma {:induction false} LoadEventsAppend(files: seq<EventFile>, f: EventFile, cutoff: string)
    ensures LoadEvents([f] + files, cutoff) ==
              (if Less(f.date, cutoff) || !f.readable then [] else FileEvents(f.lines)) + LoadEvents(files, cutoff)
  {
    assert ([f] + files)[1..] == files;
  }

  /** The events of a file that parses throughout: all of its events, in order. */
  function AllEvents(lines: seq<EventLine>): seq<ReportEvent>
    decreases |lines|
  {
    if |lines| == 0 then [] else (if lines[0].EventLine? then [lines[0].e] else []) + AllEvents(lines[1..])
  }

  lemma {:induction false} CleanFileLoadsAll(lines: seq<EventLine>)
    requires forall i :: 0 <= i < |lines| ==> !lines[i].BadLine?
    ensures FileEvents(lines) == AllEvents(lines)
    decreases |lines|
  {
    if |lines| > 0 {
      CleanFileLoadsAll(lines[1..]);
    }
  }

  /** A line that is not JSON hides every event after it in the same file. */
  lemma {:induction false} BadLineHidesRest(lines: seq<EventLine>, i: nat)
    requires i < |lines| && lines[i].BadLine?
    ensures FileEvents(lines) == FileEvents(lines[..i])
    decreases |lines|
  {
    if i == 0 {
      assert lines[..0] == [];
    } else {
      BadLineHidesRest(lines[1..], i - 1);
      assert lines[..i][1..] == lines[1..][..i - 1];
    }
  }

  // ---------------------------------------------------------------------------
  // Per-event readings of `aggregate`
  // ---------------------------------------------------------------------------

  /** `data.get("tool_name", "unknown")`: the default applies only to a missing key, so a
      present empty name is kept (unlike `AgentOf`'s `or`). */
  function ToolOf(e: ReportEvent): (t: string)
    ensures e.data.toolName.Some? ==> t == e.data.toolName.value
    ensures e.data.toolName.None? ==> t == "unknown"
  {
    e.data.toolName.GetOr("unknown")
  }

  /** `data.get("reason", "unknown")`, with the same reading of a missing key. */
  function ReasonOf(e: ReportEvent): (r: string)
    ensures e.data.reason.Some? ==> r == e.data.reason.value
    ensures e.data.reason.None? ==> r == "unknown"
  {
    e.data.reason.GetOr("unknown")
  }

  /** `data.get("agent_type") or data.get("agent_name") or "unknown"`: an empty name is falsy
      and falls through. */
  function AgentOf(e: ReportEvent): (a: string)
    ensures a != ""
    ensures e.data.agentType.Some? && e.data.agentType.value != "" ==> a == e.data.agentType.value
    ensures (e.data.agentType.None? || e.data.agentType == Some("")) &&
            e.data.agentName.Some? && e.data.agentName.value != ""
            ==> a == e.data.agentName.value
    ensures (e.data.agentType.None? || e.data.agentType == Some("")) &&
            (e.data.agentName.None? || e.data.agentName == Some(""))
            ==> a == "unknown"
  {
    if e.data.agentType.Some? && e.data.agentType.value != "" then e.data.agentType.value
    else if e.data.agentName.Some? && e.data.agentName.value != "" then e.data.agentName.value
    else "unknown"
  }

  /** `datetime.fromisoformat`: the hour and the date of a timestamp, or None when it raises. */
  type ParseIso = string -> Option<(int, string)>

  // ---------------------------------------------------------------------------
  // Reference counts for the aggregation
  // ---------------------------------------------------------------------------

  /** The event types `aggregate` tells apart. */
  datatype Kind = ToolEnd | Prompt | PreCompact | Stop | SubagentStop | OtherKind

  function KindOf(event: string): (k: Kind)
    ensures k == ToolEnd <==> event == "tool_end"
    ensures k == Prompt <==> event == "prompt"
    ensures k == PreCompact <==> event == "pre_compact"
    ensures k == Stop <==> event == "stop"
    ensures k == SubagentStop <==> event == "subagent_stop"
  {
    if event == "tool_end" then ToolEnd
    else if event == "prompt" then Prompt
    else if event == "pre_compact" then PreCompact
    else if event == "stop" then Stop
    else if event == "subagent_stop" then SubagentStop
    else OtherKind
  }

  function DurationsFor(d: map<string, seq<real>>, tool: string): seq<real> {
    if tool in d then d[tool] else []
  }

  function ToolsFor(t: map<string, map<string, int>>, agent: string): map<string, int> {
    if agent in t then t[agent] else map[]
  }

  /** `for tool, count in tc.items(): c[tool] += count`. */
  function AddCounts(c: map<string, int>, tc: map<string, int>): (r: map<string, int>)
    ensures r.Keys == c.Keys + tc.Keys
    ensures forall k :: Counters.Get(r, k) == Counters.Get(c, k) + Counters.Get(tc, k)
  {
    map k | k in c.Keys + tc.Keys :: Counters.Get(c, k) + Counters.Get(tc, k)
  }

  /** The hour and day of an event: a non-empty timestamp that parses. */
  function TimeOf(e: ReportEvent, parseIso: ParseIso): Option<(int, string)> {
    if e.ts != "" then parseIso(e.ts) else None
  }

  function CountType(events: seq<ReportEvent>, ty: string): nat
    decreases |events|
  {
    if |events| == 0 then 0
    else CountType(events[..|events| - 1], ty) + (if events[|events| - 1].event == ty then 1 else 0)
  }

  function CountKind(events: seq<ReportEvent>, k: Kind): nat
    decreases |events|
  {
    if |events| == 0 then 0
    else CountKind(events[..|events| - 1], k) + (if KindOf(events[|events| - 1].event) == k then 1 else 0)
  }

  function HourCount(events: seq<ReportEvent>, parseIso: ParseIso, h: int): nat
    decreases |events|
  {
    if |events| == 0 then 0
    else
      var t := TimeOf(events[|events| - 1], parseIso);
      HourCount(events[..|events| - 1], parseIso, h) + (if t.Some? && t.value.0 == h then 1 else 0)
  }

  function DayCount(events: seq<ReportEvent>, parseIso: ParseIso, d: string): nat
    decreases |events|
  {
    if |events| == 0 then 0
    else
      var t := TimeOf(events[|events| - 1], parseIso);
      DayCount(events[..|events| - 1], parseIso, d) + (if t.Some? && t.value.1 == d then 1 else 0)
  }

  /** The `tool_end` events for `tool`. */
  function ToolEnds(events: seq<ReportEvent>, tool: string): nat
    decreases |events|
  {
    if |events| == 0 then 0
    else
      var e := events[|events| - 1];
      ToolEnds(events[..|events| - 1], tool) + (if KindOf(e.event) == ToolEnd && ToolOf(e) == tool then 1 else 0)
  }

  /** The durations recorded by the `tool_end` events for `tool`, in order. */
  function DurationsOf(events: seq<ReportEvent>, tool: string): seq<real>
    decreases |events|
  {
    if |events| == 0 then []
    else
      var e := events[|events| - 1];
      DurationsOf(events[..|events| - 1], tool) +
        (if KindOf(e.event) == ToolEnd && ToolOf(e) == tool && e.data.durationMs.Some? then [e.data.durationMs.value] else [])
  }

  function PromptWords(events: seq<ReportEvent>): int
    decreases |events|
  {
    if |events| == 0 then 0
    else
      var e := events[|events| - 1];
      PromptWords(events[..|events| - 1]) + (if KindOf(e.event) == Prompt then e.data.wordCount.GetOr(0) else 0)
  }

  function StopsFor(events: seq<ReportEvent>, reason: string): nat
    decreases |events|
  {
    if |events| == 0 then 0
    else
      var e := events[|events| - 1];
      StopsFor(events[..|events| - 1], reason) + (if KindOf(e.event) == Stop && ReasonOf(e) == reason then 1 else 0)
  }

  function AgentStops(events: seq<ReportEvent>, agent: string): nat
    decreases |events|
  {
    if |events| == 0 then 0
    else
      var e := events[|events| - 1];
      AgentStops(events[..|events| - 1], agent) + (if KindOf(e.event) == SubagentStop && AgentOf(e) == agent then 1 else 0)
  }

  /** The sum, over the agent's subagent stops, of the count each reports for `tool`. */
  function AgentToolSum(events: seq<ReportEvent>, agent: string, tool: string): int
    decreases |events|
  {
    if |events| == 0 then 0
    else
      var e := events[|events| - 1];
      AgentToolSum(events[..|events| - 1], agent, tool) +
        (if KindOf(e.event) == SubagentStop && AgentOf(e) == agent then Counters.Get(e.data.toolCounts, tool) else 0)
  }

  function SessionIds(events: seq<ReportEvent>): set<string> {
    set i | 0 <= i < |events| :: events[i].sessionId
  }

  lemma SessionIdsAppend(events: seq<ReportEvent>, i: nat)
    requires i < |events|
    ensures SessionIds(events[..i + 1]) == SessionIds(events[..i]) + {events[i].sessionId}
  {
    var pre, cur := events[..i], events[..i + 1];
    forall s | s in SessionIds(cur) ensures s in SessionIds(pre) + {events[i].sessionId} {
      var j :| 0 <= j < |cur| && cur[j].sessionId == s;
      if j < i { assert pre[j] == cur[j]; }
    }
    forall s | s in SessionIds(pre) ensures s in SessionIds(cur) {
      var j :| 0 <= j < |pre| && pre[j].sessionId == s;
      assert cur[j] == pre[j];
    }
  }

  /** Each kind is counted under the one type name it stands for. */
  lemma {:induction false} KindCounts(events: seq<ReportEvent>)
    ensures CountKind(events, ToolEnd) == CountType(events, "tool_end")
    ensures CountKind(events, Prompt) == CountType(events, "prompt")
    ensures CountKind(events, PreCompact) == CountType(events, "pre_compact")
    ensures CountKind(events, Stop) == CountType(events, "stop")
    ensures CountKind(events, SubagentStop) == CountType(events, "subagent_stop")
    decreases |events|
  {
    if |events| > 0 {
      KindCounts(events[..|events| - 1]);
    }
  }

  // ---------------------------------------------------------------------------
  // Tool duration statistics
  // ---------------------------------------------------------------------------

  function MinOf(ds: seq<real>): (m: real)
    requires |ds| > 0
    ensures m in ds && forall i :: 0 <= i < |ds| ==> m <= ds[i]
    decreases |ds|
  {
    if |ds| == 1 then ds[0]
    else
      var rest := MinOf(ds[1..]);
      if ds[0] <= rest then ds[0] else rest
  }

  function MaxOf(ds: seq<real>): (m: real)
    requires |ds| > 0
    ensures m in ds && forall i :: 0 <= i < |ds| ==> ds[i] <= m
    decreases |ds|
  {
    if |ds| == 1 then ds[0]
    else
      var rest := MaxOf(ds[1..]);
      if ds[0] >= rest then ds[0] else rest
  }

  function SumOf(ds: seq<real>): real
    decreases |ds|
  {
    if |ds| == 0 then 0.0 else ds[0] + SumOf(ds[1..])
  }

  /** `x` added to itself `k` times. */
  function Times(k: nat, x: real): real
    decreases k
  {
    if k == 0 then 0.0 else Times(k - 1, x) + x
  }

  lemma {:induction false} TimesIsProduct(k: nat, x: real)
    ensures Times(k, x) == (k as real) * x
    decreases k
  {
    if k > 0 {
      TimesIsProduct(k - 1, x);
      assert (k as real) * x == ((k - 1) as real) * x + x;
    }
  }

  lemma {:induction false} SumBounds(ds: seq<real>, lo: real, hi: real)
    requires forall i :: 0 <= i < |ds| ==> lo <= ds[i] <= hi
    ensures Times(|ds|, lo) <= SumOf(ds) <= Times(|ds|, hi)
    decreases |ds|
  {
    if |ds| > 0 {
      SumBounds(ds[1..], lo, hi);
    }
  }

  /** `sorted(d)[len(d) // 2]`: a duration of the list. */
  function Median(ds: seq<real>): (m: real)
    requires |ds| > 0
    ensures m in ds
  {
    var sorted := Sorting.SortReals(ds);
    var m := sorted[|ds| / 2];
    assert m in multiset(sorted);
    m
  }

  /** `sum(d) / len(d)`: it lies between the extremes. */
  function Mean(ds: seq<real>): (m: real)
    requires |ds| > 0
    ensures MinOf(ds) <= m <= MaxOf(ds)
  {
    SumBounds(ds, MinOf(ds), MaxOf(ds));
    QuotientBounds(SumOf(ds), |ds|, MinOf(ds), MaxOf(ds));
    SumOf(ds) / (|ds| as real)
  }

  lemma QuotientBounds(x: real, n: nat, lo: real, hi: real)
    requires n > 0 && Times(n, lo) <= x <= Times(n, hi)
    ensures lo <= x / (n as real) <= hi
  {
    var m := n as real;
    TimesIsProduct(n, lo);
    TimesIsProduct(n, hi);
    var q := x / m;
    assert q * m == x;
    if q < lo { PositiveProduct(lo - q, m); }
    if q > hi { PositiveProduct(q - hi, m); }
  }

  lemma PositiveProduct(a: real, b: real)
    requires a > 0.0 && b > 0.0
    ensures a * b > 0.0
  {
  }

  /** A `tool_stats` entry; `round(..., 1)` is not modelled. */
  datatype ToolStat = ToolStat(count: int, avgMs: real, minMs: real, maxMs: real, p50Ms: real)

  /** The statistics of a non-empty list of durations: the extremes and the median are
      durations of the list, and the median and the mean lie between the extremes. */
  function ToolStatOf(count: int, ds: seq<real>): (s: ToolStat)
    requires |ds| > 0
    ensures s.count == count
    ensures s.minMs in ds && s.maxMs in ds && s.p50Ms in ds
    ensures forall i :: 0 <= i < |ds| ==> s.minMs <= ds[i] <= s.maxMs
    ensures s.minMs <= s.p50Ms <= s.maxMs
    ensures s.minMs <= s.avgMs <= s.maxMs
  {
    ToolStat(count, Mean(ds), MinOf(ds), MaxOf(ds), Median(ds))
  }

  /** The dictionary `aggregate` returns; the order of its keys (`most_common`, `sorted`) is
      not modelled. */
  datatype Report = Report(
    totalEvents: nat, uniqueSessions: nat, totalPrompts: nat, totalPromptWords: int,
    totalCompacts: nat, toolCounts: map<string, int>, toolStats: map<string, ToolStat>,
    stopReasons: map<string, int>, agentCounts: map<string, int>,
    agentTools: map<string, map<string, int>>, eventTypeCounts: map<string, int>,
    hourly: map<int, int>, daily: map<string, int>)

  /** The statistics loop: one entry per tool with durations. */
  method ToolStats(toolCounts: map<string, int>, durations: map<string, seq<real>>)
    returns (stats: map<string, ToolStat>)
    ensures forall tool :: tool in stats <==> tool in durations && |durations[tool]| > 0
    ensures forall tool :: tool in stats ==> stats[tool] == ToolStatOf(Counters.Get(toolCounts, tool), durations[tool])
  {
    stats := map[];
    var remaining := durations.Keys;
    while remaining != {}
      invariant remaining <= durations.Keys
      invariant forall tool :: tool in stats <==> tool in durations && tool !in remaining && |durations[tool]| > 0
      invariant forall tool :: tool in stats ==> stats[tool] == ToolStatOf(Counters.Get(toolCounts, tool), durations[tool])
      decreases remaining
    {
      var tool :| tool in remaining;
      if |durations[tool]| > 0 {
        stats := stats[tool := ToolStatOf(Counters.Get(toolCounts, tool), durations[tool])];
      }
      remaining := remaining - {tool};
    }
  }

  // ---------------------------------------------------------------------------
  // The aggregation loop
  // ---------------------------------------------------------------------------

  /** What the counters updated for every event hold after the events `done`. */
  ghost predicate CommonCounted(done: seq<ReportEvent>, parseIso: ParseIso, eventTypes: map<string, int>,
                                sessions: set<string>, hourly: map<int, int>, daily: map<string, int>)
  {
    && sessions == SessionIds(done)
    && (forall ty :: Counters.Get(eventTypes, ty) == CountType(done, ty))
    && Counters.Total(eventTypes) == |done|
    && (forall h :: Counters.Get(hourly, h) == HourCount(done, parseIso, h))
    && (forall d :: Counters.Get(daily, d) == DayCount(done, parseIso, d))
  }

  /** What the `tool_end` counters hold after the events `done`. */
  ghost predicate ToolsCounted(done: seq<ReportEvent>, toolCounts: map<string, int>, durations: map<string, seq<real>>) {
    && (forall tool :: Counters.Get(toolCounts, tool) == ToolEnds(done, tool))
    && Counters.Total(toolCounts) == CountKind(done, ToolEnd)
    && (forall tool :: DurationsFor(durations, tool) == DurationsOf(done, tool))
    && (forall tool :: tool in durations ==> |durations[tool]| > 0)
  }

  /** What the `prompt` and `pre_compact` counters hold after the events `done`. */
  ghost predicate PromptsCounted(done: seq<ReportEvent>, prompts: int, promptWords: int, compacts: int) {
    && prompts == CountKind(done, Prompt)
    && promptWords == PromptWords(done)
    && compacts == CountKind(done, PreCompact)
  }

  /** What the `stop` counter holds after the events `done`. */
  ghost predicate StopsCounted(done: seq<ReportEvent>, stops: map<string, int>) {
    && (forall reason :: Counters.Get(stops, reason) == StopsFor(done, reason))
    && Counters.Total(stops) == CountKind(done, Stop)
  }

  /** What the `subagent_stop` counter holds after the events `done`. */
  ghost predicate AgentsCounted(done: seq<ReportEvent>, agents: map<string, int>) {
    && (forall agent :: Counters.Get(agents, agent) == AgentStops(done, agent))
    && Counters.Total(agents) == CountKind(done, SubagentStop)
  }

  /** What the per-agent tool counters hold after the events `done`. */
  ghost predicate AgentToolsCounted(done: seq<ReportEvent>, agentTools: map<string, map<string, int>>) {
    forall agent, tool :: Counters.Get(ToolsFor(agentTools, agent), tool) == AgentToolSum(done, agent, tool)
  }

  /** The updates every event makes: its type, its session, and its hour and day. */
  method CountCommon(events: seq<ReportEvent>, i: nat, parseIso: ParseIso, eventTypes: map<string, int>,
                     sessions: set<string>, hourly: map<int, int>, daily: map<string, int>)
    returns (eventTypes': map<string, int>, sessions': set<string>, hourly': map<int, int>, daily': map<string, int>)
    requires i < |events| && CommonCounted(events[..i], parseIso, eventTypes, sessions, hourly, daily)
    ensures CommonCounted(events[..i + 1], parseIso, eventTypes', sessions', hourly', daily')
  {
    var e := events[i];
    assert events[..i + 1][..i] == events[..i];
    eventTypes' := Counters.Add(eventTypes, e.event, 1);
    Counters.TotalAdd(eventTypes, e.event, 1);
    SessionIdsAppend(events, i);
    sessions' := sessions + {e.sessionId};
    var t := TimeOf(e, parseIso);
    hourly', daily' := hourly, daily;
    if t.Some? {
      hourly' := Counters.Add(hourly, t.value.0, 1);
      daily' := Counters.Add(daily, t.value.1, 1);
    }
  }

  /** A `tool_end` event counts its tool and records its duration when it has one. */
  method CountToolEnd(events: seq<ReportEvent>, i: nat, toolCounts: map<string, int>, durations: map<string, seq<real>>)
    returns (toolCounts': map<string, int>, durations': map<string, seq<real>>)
    requires i < |events| && ToolsCounted(events[..i], toolCounts, durations)
    ensures ToolsCounted(events[..i + 1], toolCounts', durations')
  {
    var e := events[i];
    assert events[..i + 1][..i] == events[..i];
    toolCounts', durations' := toolCounts, durations;
    if KindOf(e.event) == ToolEnd {
      var tool := ToolOf(e);
      toolCounts' := Counters.Add(toolCounts, tool, 1);
      Counters.TotalAdd(toolCounts, tool, 1);
      if e.data.durationMs.Some? {
        durations' := durations[tool := DurationsFor(durations, tool) + [e.data.durationMs.value]];
      }
    }
    forall tool ensures DurationsFor(durations', tool) == DurationsOf(events[..i + 1], tool) {
      assert events[..i + 1][i] == e;
    }
  }

  /** A `prompt` event counts itself and its words; a `pre_compact` event counts itself. */
  method CountPrompt(events: seq<ReportEvent>, i: nat, prompts: int, promptWords: int, compacts: int)
    returns (prompts': int, promptWords': int, compacts': int)
    requires i < |events| && PromptsCounted(events[..i], prompts, promptWords, compacts)
    ensures PromptsCounted(events[..i + 1], prompts', promptWords', compacts')
  {
    var e := events[i];
    assert events[..i + 1][..i] == events[..i];
    prompts', promptWords', compacts' := prompts, promptWords, compacts;
    var k := KindOf(e.event);
    if k == Prompt {
      prompts' := prompts + 1;
      promptWords' := promptWords + e.data.wordCount.GetOr(0);
    } else if k == PreCompact {
      compacts' := compacts + 1;
    }
  }

  /** A `stop` event counts its reason. */
  method CountStop(events: seq<ReportEvent>, i: nat, stops: map<string, int>) returns (stops': map<string, int>)
    requires i < |events| && StopsCounted(events[..i], stops)
    ensures StopsCounted(events[..i + 1], stops')
  {
    var e := events[i];
    assert events[..i + 1][..i] == events[..i];
    stops' := stops;
    if KindOf(e.event) == Stop {
      stops' := Counters.Add(stops, ReasonOf(e), 1);
      Counters.TotalAdd(stops, ReasonOf(e), 1);
    }
  }

  /** A `subagent_stop` event counts its agent. */
  method CountSubagent(events: seq<ReportEvent>, i: nat, agents: map<string, int>) returns (agents': map<string, int>)
    requires i < |events| && AgentsCounted(events[..i], agents)
    ensures AgentsCounted(events[..i + 1], agents')
  {
    var e := events[i];
    assert events[..i + 1][..i] == events[..i];
    agents' := agents;
    if KindOf(e.event) == SubagentStop {
      agents' := Counters.Add(agents, AgentOf(e), 1);
      Counters.TotalAdd(agents, AgentOf(e), 1);
    }
  }

  /** A `subagent_stop` event whose tool counts are not empty adds them to its agent's. */
  method CountAgentTools(events: seq<ReportEvent>, i: nat, agentTools: map<string, map<string, int>>)
    returns (agentTools': map<string, map<string, int>>)
    requires i < |events| && AgentToolsCounted(events[..i], agentTools)
    ensures AgentToolsCounted(events[..i + 1], agentTools')
  {
    var e := events[i];
    agentTools' := agentTools;
    if KindOf(e.event) == SubagentStop {
      var agent, tc := AgentOf(e), e.data.toolCounts;
      if |tc| > 0 {
        agentTools' := agentTools[agent := AddCounts(ToolsFor(agentTools, agent), tc)];
      }
    }
    forall a, tool
      ensures Counters.Get(ToolsFor(agentTools', a), tool) == AgentToolSum(events[..i + 1], a, tool)
    {
      AgentToolSumStep(events, i, a, tool);
    }
  }

  lemma AgentToolSumStep(events: seq<ReportEvent>, i: nat, agent: string, tool: string)
    requires i < |events|
    ensures var e := events[i];
            AgentToolSum(events[..i + 1], agent, tool) == AgentToolSum(events[..i], agent, tool) +
              (if KindOf(e.event) == SubagentStop && AgentOf(e) == agent then Counters.Get(e.data.toolCounts, tool) else 0)
  {
    assert events[..i + 1][..i] == events[..i];
    assert events[..i + 1][i] == events[i];
  }

  /** `aggregate`: every counter holds, key by key, the count its reference function gives
      for the whole list of events, and each tool with durations has its statistics. */
  method Aggregate(events: seq<ReportEvent>, parseIso: ParseIso) returns (r: Report)
    ensures r.totalEvents == |events|
    ensures r.uniqueSessions == |SessionIds(events)|
    ensures forall ty :: Counters.Get(r.eventTypeCounts, ty) == CountType(events, ty)
    ensures Counters.Total(r.eventTypeCounts) == |events|
    ensures forall h :: Counters.Get(r.hourly, h) == HourCount(events, parseIso, h)
    ensures forall d :: Counters.Get(r.daily, d) == DayCount(events, parseIso, d)
    ensures forall tool :: Counters.Get(r.toolCounts, tool) == ToolEnds(events, tool)
    ensures Counters.Total(r.toolCounts) == CountType(events, "tool_end")
    ensures forall tool :: tool in r.toolStats <==> |DurationsOf(events, tool)| > 0
    ensures forall tool :: tool in r.toolStats ==>
              r.toolStats[tool] == ToolStatOf(ToolEnds(events, tool), DurationsOf(events, tool))
    ensures r.totalPrompts == CountType(events, "prompt")
    ensures r.totalPromptWords == PromptWords(events)
    ensures r.totalCompacts == CountType(events, "pre_compact")
    ensures forall reason :: Counters.Get(r.stopReasons, reason) == StopsFor(events, reason)
    ensures Counters.Total(r.stopReasons) == CountType(events, "stop")
    ensures forall agent :: Counters.Get(r.agentCounts, agent) == AgentStops(events, agent)
    ensures Counters.Total(r.agentCounts) == CountType(events, "subagent_stop")
    ensures forall agent, tool :: Counters.Get(ToolsFor(r.agentTools, agent), tool) == AgentToolSum(events, agent, tool)
  {
    var toolCounts: map<string, int> := map[];
    var durations: map<string, seq<real>> := map[];
    var eventTypes: map<string, int> := map[];
    var sessions: set<string> := {};
    var prompts, promptWords, compacts := 0, 0, 0;
    var stops: map<string, int> := map[];
    var agents: map<string, int> := map[];
    var agentTools: map<string, map<string, int>> := map[];
    var hourly: map<int, int> := map[];
    var daily: map<string, int> := map[];
    var i := 0;
    while i < |events|
      invariant 0 <= i <= |events|
      invariant CommonCounted(events[..i], parseIso, eventTypes, sessions, hourly, daily)
      invariant ToolsCounted(events[..i], toolCounts, durations)
      invariant PromptsCounted(events[..i], prompts, promptWords, compacts)
      invariant StopsCounted(events[..i], stops)
      invariant AgentsCounted(events[..i], agents)
      invariant AgentToolsCounted(events[..i], agentTools)
    {
      eventTypes, sessions, hourly, daily := CountCommon(events, i, parseIso, eventTypes, sessions, hourly, daily);
      toolCounts, durations := CountToolEnd(events, i, toolCounts, durations);
      prompts, promptWords, compacts := CountPrompt(events, i, prompts, promptWords, compacts);
      stops := CountStop(events, i, stops);
      agents := CountSubagent(events, i, agents);
      agentTools := CountAgentTools(events, i, agentTools);
      i := i + 1;
    }
    assert events[..|events|] == events;
    KindCounts(events);
    var stats := ToolStats(toolCounts, durations);
    r := Report(|events|, |sessions|, prompts, promptWords, compacts, toolCounts, stats,
                stops, agents, agentTools, eventTypes, hourly, daily);
  }

  // ---------------------------------------------------------------------------
  // The text report's bars and lists
  // ---------------------------------------------------------------------------

  function Repeat(c: char, n: nat): (r: string)
    ensures |r| == n && forall i :: 0 <= i < n ==> r[i] == c
  {
    seq(n, _ => c)
  }

  /** `"#" * min(count // per, cap)`: a count below `per` draws nothing, each further `per`
      events draw one more mark, up to `cap`. */
  function Bar(count: int, per: nat, cap: nat): (b: string)
    requires per > 0
    ensures |b| <= cap && forall i :: 0 <= i < |b| ==> b[i] == '#'
    ensures 0 <= count / per <= cap ==> |b| == count / per
    ensures count / per >= cap ==> |b| == cap
  {
    var n := count / per;
    if n <= 0 then "" else if n > cap then Repeat('#', cap) else Repeat('#', n)
  }

  /** More events never draw a shorter bar. */
  lemma BarMonotone(a: int, b: int, per: nat, cap: nat)
    requires per > 0 && a <= b
    ensures |Bar(a, per, cap)| <= |Bar(b, per, cap)|
  {
    DivMonotone(a, b, per);
  }

  lemma DivMonotone(a: int, b: int, d: nat)
    requires d > 0 && a <= b
    ensures a / d <= b / d
  {
    var qa, qb := a / d, b / d;
    if qa > qb {
      MulNonNeg(qa - qb - 1, d);
    }
  }

  lemma MulNonNeg(x: int, d: nat)
    requires x >= 0
    ensures x * d >= 0
  {
  }

  /** The daily bar: one mark per 5 events, at most 40. */
  function DailyBar(count: int): (b: string)
    ensures |b| <= 40 && forall i :: 0 <= i < |b| ==> b[i] == '#'
    ensures count >= 200 ==> |b| == 40
  {
    Bar(count, 5, 40)
  }

  /** The hourly bar: one mark per 3 events, at most 30. */
  function HourlyBar(count: int): (b: string)
    ensures |b| <= 30 && forall i :: 0 <= i < |b| ==> b[i] == '#'
    ensures count >= 90 ==> |b| == 30
  {
    Bar(count, 3, 30)
  }

  /** `f"{hour:02d}"`: two digits at least, zero-padded. */
  function Hour2(hour: int): (s: string)
    ensures |s| >= 2
    ensures 0 <= hour < 10 ==> s == "0" + IntToString(hour)
  {
    var t := IntToString(hour);
    if |t| < 2 then "0" + t else t
  }

  function DailyLine(day: string, count: int): string {
    "- " + day + ": " + IntToString(count) + " events " + DailyBar(count)
  }

  function HourlyLine(hour: int, count: int): string {
    "- " + Hour2(hour) + ":00 \U{2014} " + IntToString(count) + " " + HourlyBar(count)
  }

  function StopLine(reason: string, count: int): string {
    "- " + reason + ": " + IntToString(count)
  }

  /** A report section over counted items: nothing when there are none, otherwise the title,
      a blank line, one line per item in order, and a blank line. */
  method Section<K>(title: string, items: seq<(K, int)>, line: (K, int) -> string) returns (lines: seq<string>)
    ensures |items| == 0 ==> lines == []
    ensures |items| > 0 ==> |lines| == |items| + 3 && lines[0] == title && lines[1] == "" && lines[|lines| - 1] == ""
    ensures |items| > 0 ==> forall i :: 0 <= i < |items| ==> lines[i + 2] == line(items[i].0, items[i].1)
  {
    lines := [];
    if |items| == 0 {
      return;
    }
    lines := [title, ""];
    for i := 0 to |items|
      invariant |lines| == i + 2 && lines[0] == title && lines[1] == ""
      invariant forall j :: 0 <= j < i ==> lines[j + 2] == line(items[j].0, items[j].1)
    {
      lines := lines + [line(items[i].0, items[i].1)];
    }
    lines := lines + [""];
  }

  /** The daily, hourly and stop-reason sections of `text_report`, over the counters in the
      order the report lists them. */
  method CountSections(daily: seq<(string, int)>, hourly: seq<(int, int)>, stops: seq<(string, int)>)
    returns (stopLines: seq<string>, dailyLines: seq<string>, hourlyLines: seq<string>)
    ensures |stops| == 0 ==> stopLines == []
    ensures |daily| == 0 ==> dailyLines == []
    ensures |hourly| == 0 ==> hourlyLines == []
    ensures |stops| > 0 ==> |stopLines| == |stops| + 3 && stopLines[0] == "## Stop Reasons"
    ensures |daily| > 0 ==> |dailyLines| == |daily| + 3 && dailyLines[0] == "## Daily Activity"
    ensures |hourly| > 0 ==> |hourlyLines| == |hourly| + 3 && hourlyLines[0] == "## Hourly Distribution (UTC)"
    ensures forall i :: 0 <= i < |stops| ==> stopLines[i + 2] == StopLine(stops[i].0, stops[i].1)
    ensures forall i :: 0 <= i < |daily| ==> dailyLines[i + 2] == DailyLine(daily[i].0, daily[i].1)
    ensures forall i :: 0 <= i < |hourly| ==> hourlyLines[i + 2] == HourlyLine(hourly[i].0, hourly[i].1)
  {
    stopLines := Section("## Stop Reasons", stops, StopLine);
    dailyLines := Section("## Daily Activity", daily, DailyLine);
    hourlyLines := Section("## Hourly Distribution (UTC)", hourly, HourlyLine);
  }

  /** An entry of the session index, as `sessions.items()` lists it. */
  type SessionItem = (string, map<string, Json>)

  /** `s.get("status") == status`. */
  predicate HasStatus(item: SessionItem, status: string) {
    "status" in item.1 && item.1["status"] == JStr(status)
  }

  /** The sessions with the given status, in index order. */
  function WithStatus(sessions: seq<SessionItem>, status: string): (r: seq<SessionItem>)
    ensures |r| <= |sessions|
    ensures forall x :: x in r <==> x in sessions && HasStatus(x, status)
    decreases |sessions|
  {
    if |sessions| == 0 then []
    else (if HasStatus(sessions[0], status) then [sessions[0]] else []) + WithStatus(sessions[1..], status)
  }

  /** The filter keeps index order: a session added at the end of the index is listed after
      every session kept before it. */
  lemma {:induction false} WithStatusAppend(sessions: seq<SessionItem>, x: SessionItem, status: string)
    ensures WithStatus(sessions + [x], status) ==
            WithStatus(sessions, status) + (if HasStatus(x, status) then [x] else [])
    decreases |sessions|
  {
    var tail := if HasStatus(x, status) then [x] else [];
    if |sessions| > 0 {
      var head := if HasStatus(sessions[0], status) then [sessions[0]] else [];
      var s' := sessions + [x];
      assert s'[0] == sessions[0] && s'[1..] == sessions[1..] + [x];
      WithStatusAppend(sessions[1..], x, status);
      calc {
        WithStatus(s', status);
        head + WithStatus(sessions[1..] + [x], status);
        head + (WithStatus(sessions[1..], status) + tail);
        (head + WithStatus(sessions[1..], status)) + tail;
        WithStatus(sessions, status) + tail;
      }
    } else {
      assert [x][1..] == [];
      assert WithStatus([x], status) == tail + WithStatus([], status);
    }
  }

  /** `s.get("ended_at", "")` as a sort key. */
  function EndedAt(item: SessionItem): string {
    if "ended_at" in item.1 && item.1["ended_at"].JStr? then item.1["ended_at"].s else ""
  }

  /** The "Recent Sessions (last 5)" list: the ended sessions, latest `ended_at` first, at
      most five of them. */
  function RecentEnded(sessions: seq<SessionItem>): (r: seq<SessionItem>)
    ensures |r| <= 5
    ensures |r| == if |WithStatus(sessions, "ended")| < 5 then |WithStatus(sessions, "ended")| else 5
    ensures forall x :: x in r ==> x in sessions && HasStatus(x, "ended")
    ensures multiset(r) <= multiset(WithStatus(sessions, "ended"))
    ensures Sorting.SortedBy(r, EndedAt, true)
  {
    var ended := WithStatus(sessions, "ended");
    var sorted := Sorting.SortBy(ended, EndedAt, true);
    var r := if |sorted| <= 5 then sorted else sorted[..5];
    SortedPrefix(sorted, r, EndedAt, true);
    assert forall x :: x in r ==> x in multiset(ended);
    r
  }

  /** A prefix of a sorted list is sorted, and its elements are among the list's. */
  lemma SortedPrefix<T>(s: seq<T>, r: seq<T>, key: T -> string, descending: bool)
    requires r <= s && Sorting.SortedBy(s, key, descending)
    ensures Sorting.SortedBy(r, key, descending)
    ensures multiset(r) <= multiset(s)
    ensures forall x :: x in r ==> x in multiset(s)
  {
    assert s == r + s[|r|..];
  }

  /** No ended session left out of the list ended later than one that is in it. */
  lemma RecentAreLatest(sessions: seq<SessionItem>, x: SessionItem, i: nat)
    requires x in WithStatus(sessions, "ended") && x !in RecentEnded(sessions)
    requires i < |RecentEnded(sessions)|
    ensures LessEq(EndedAt(x), EndedAt(RecentEnded(sessions)[i]))
  {
    var ended := WithStatus(sessions, "ended");
    var sorted := Sorting.SortBy(ended, EndedAt, true);
    assert x in multiset(sorted) by { assert x in multiset(ended); }
    var r := RecentEnded(sessions);
    assert r <= sorted;
    LaterThanLeftOut(sorted, r, EndedAt, x, i);
  }

  /** In a list sorted latest first, an element left out of a prefix is no later than any
      element of the prefix. */
  lemma LaterThanLeftOut<T>(sorted: seq<T>, r: seq<T>, key: T -> string, x: T, i: nat)
    requires Sorting.SortedBy(sorted, key, true) && r <= sorted
    requires x in multiset(sorted) && x !in r && i < |r|
    ensures LessEq(key(x), key(r[i]))
  {
    var j :| 0 <= j < |sorted| && sorted[j] == x;
    assert forall k :: 0 <= k < |r| ==> r[k] != x;
    assert |r| <= j;
    assert Sorting.Before(key(sorted[i]), key(sorted[j]), true);
  }
}
