/** The plugin's telemetry engine (plugin-example/lib/telemetry.py): the privacy sanitisers, the
    renaming of local event types to the server's, the per-process sequence counter, the push
    queue and its batched flush, the session index, the pending-tool stacks, retention cleanup
    and subagent transcript counting.

    Each file the engine keeps is a class field holding the file's parsed contents; a file that
    exists but does not parse is a flag or a `Garbled` value. The clock, `json.dumps`, `str`
    and the outcome of each HTTP POST are parameters. */
module Telemetry {
  import opened Wrappers
  import opened Strings
  import opened Json
  import Counters
  import EventTypes

  // ---------------------------------------------------------------------------
  // Configuration
  // ---------------------------------------------------------------------------

  /** The keys of `config.json` the engine reads; an absent key (or an absent `privacy`
      object) is None and takes the default. */
  datatype Config = Config(
    apiUrl: Option<string>, apiKey: Option<string>, pushBatchSize: Option<int>,
    previewChars: Option<int>)

  const DefaultPreviewChars := 100
  const DefaultBatchSize := 100

  /** Python truthiness of an optional string setting: present and not empty. */
  predicate Truthy(s: Option<string>) {
    s.Some? && s.value != ""
  }

  // ---------------------------------------------------------------------------
  // Event-type renaming
  // ---------------------------------------------------------------------------

  /** `_EVENT_TYPE_MAP`: the local hook names the server knows under another name. */
  const EventTypeMap: map<string, string> :=
    map["tool_start" := "tool_use", "tool_end" := "tool_result",
        "prompt" := "prompt_submit", "stop" := "assistant_stop"]

  /** `_EVENT_TYPE_MAP.get(t, t)`: the server's name for a local event type. It is never
      itself one of the renamed local names. */
  function ServerType(t: string): (r: string)
    ensures r !in EventTypeMap
    ensures r == t <==> t !in EventTypeMap
  {
    if t in EventTypeMap then EventTypeMap[t] else t
  }

  /** The four renamings, and renaming is idempotent. */
  lemma RenamedTypes(t: string)
    ensures ServerType("tool_start") == "tool_use" && ServerType("tool_end") == "tool_result"
    ensures ServerType("prompt") == "prompt_submit" && ServerType("stop") == "assistant_stop"
    ensures ServerType(ServerType(t)) == ServerType(t)
  {
  }

  /** The types the hook scripts write. */
  const HookTypes: set<string> :=
    {"session_start", "session_end", "tool_start", "tool_end", "prompt", "stop",
     "subagent_stop", "pre_compact"}

  /** Every type a hook writes reaches the server as one of its nine event kinds, although the
      four renamed local names would be refused as they are. */
  lemma HookTypesAccepted(t: string)
    requires t in HookTypes
    ensures EventTypes.ParseEventType(ServerType(t)).Some?
    ensures t in EventTypeMap ==> EventTypes.ParseEventType(t).None?
  {
  }

  /** A line of an events file, and of the push queue. */
  datatype LocalEvent = LocalEvent(
    ts: string, event: string, sessionId: string, seqNo: int, data: map<string, Json>)

  /** The record `_queue_for_push` appends: the event with its type renamed. */
  function QueueEntry(e: LocalEvent): (q: LocalEvent)
    ensures q.ts == e.ts && q.sessionId == e.sessionId && q.seqNo == e.seqNo && q.data == e.data
    ensures q.event == ServerType(e.event)
    ensures q.event == e.event <==> e.event !in EventTypeMap
  {
    e.(event := ServerType(e.event))
  }

  // ---------------------------------------------------------------------------
  // Sequence numbers
  // ---------------------------------------------------------------------------

  /** The module-level `_seq_counter` of one process. */
  class SeqCounter {
    var counter: int

    constructor ()
      ensures counter == 0
    {
      counter := 0;
    }

    /** `_get_seq`: one more than the previous value. */
    method Next() returns (s: int)
      modifies this
      ensures s == old(counter) + 1 && counter == s
    {
      counter := counter + 1;
      s := counter;
    }

    /** Two calls in a row give strictly increasing, consecutive numbers. */
    method NextTwo() returns (a: int, b: int)
      modifies this
      ensures a == old(counter) + 1 && b == a + 1 && counter == b
    {
      a := Next();
      b := Next();
    }
  }

  // ---------------------------------------------------------------------------
  // Sanitisers
  // ---------------------------------------------------------------------------

  /** Python's `s[:n]`: a negative `n` counts from the end. */
  function PyPrefix(s: string, n: int): (r: string)
    ensures r <= s
  {
    if n >= 0 then (if n <= |s| then s[..n] else s)
    else if -n <= |s| then s[..|s| + n] else ""
  }

  /** The text of a tool input: `json.dumps` for a dict, `str` for anything else. */
  function InputText(toolInput: Json, dumps: Json -> string, str: Json -> string): string {
    if toolInput.JObj? then dumps(toolInput) else str(toolInput)
  }

  /** `sanitize_tool_input`: None for a null input; text longer than `max_chars` is cut to
      its first `max_chars` characters followed by "..."; shorter text is kept. */
  function SanitizeToolInput(toolInput: Json, config: Config, dumps: Json -> string,
                             str: Json -> string): (r: Option<string>)
    ensures r.None? <==> toolInput.JNull?
    ensures r.Some? ==> var text := InputText(toolInput, dumps, str);
              var m := config.previewChars.GetOr(DefaultPreviewChars);
              (|text| <= m ==> r.value == text) &&
              (0 <= m < |text| ==> r.value == text[..m] + "...") &&
              (m < 0 ==> r.value == PyPrefix(text, m) + "...")
  {
    if toolInput.JNull? then None
    else
      var maxChars := config.previewChars.GetOr(DefaultPreviewChars);
      var text := InputText(toolInput, dumps, str);
      if |text| > maxChars then Some(PyPrefix(text, maxChars) + "...") else Some(text)
  }

  /** With a non-negative limit the preview has at most `max_chars + 3` characters and begins
      with the text's first characters. */
  lemma PreviewIsBounded(toolInput: Json, config: Config, dumps: Json -> string, str: Json -> string)
    requires !toolInput.JNull? && config.previewChars.GetOr(DefaultPreviewChars) >= 0
    ensures var r := SanitizeToolInput(toolInput, config, dumps, str).value;
            var text := InputText(toolInput, dumps, str);
            var m := config.previewChars.GetOr(DefaultPreviewChars);
            |r| <= m + 3 && (|text| <= m ==> r == text) && (|text| > m ==> r[..m] == text[..m])
  {
    var text := InputText(toolInput, dumps, str);
    var m := config.previewChars.GetOr(DefaultPreviewChars);
    if |text| > m {
      assert (text[..m] + "...")[..m] == text[..m];
    }
  }

  /** Privacy: beyond the limit, the rest of the text does not reach the preview. */
  lemma PreviewIgnoresTail(a: Json, b: Json, config: Config, dumps: Json -> string, str: Json -> string)
    requires !a.JNull? && !b.JNull?
    requires var m := config.previewChars.GetOr(DefaultPreviewChars);
             0 <= m < |InputText(a, dumps, str)| && m < |InputText(b, dumps, str)| &&
             InputText(a, dumps, str)[..m] == InputText(b, dumps, str)[..m]
    ensures SanitizeToolInput(a, config, dumps, str) == SanitizeToolInput(b, config, dumps, str)
  {
  }

  /** `sanitize_tool_result`: only a size, 0 for null, the length of a string, and the length
      of the JSON text of anything else. */
  function SanitizeToolResult(toolResult: Json, dumps: Json -> string): (r: map<string, int>)
    ensures r.Keys == {"size"} && r["size"] >= 0
    ensures toolResult.JNull? ==> r["size"] == 0
    ensures toolResult.JStr? ==> r["size"] == |toolResult.s|
    ensures !toolResult.JNull? && !toolResult.JStr? ==> r["size"] == |dumps(toolResult)|
  {
    if toolResult.JNull? then map["size" := 0]
    else if toolResult.JStr? then map["size" := |toolResult.s|]
    else map["size" := |dumps(toolResult)|]
  }

  /** Privacy: two results of the same length are recorded identically. */
  lemma ResultIgnoresContent(a: string, b: string, dumps: Json -> string)
    requires |a| == |b|
    ensures SanitizeToolResult(JStr(a), dumps) == SanitizeToolResult(JStr(b), dumps)
  {
  }

  // ---------------------------------------------------------------------------
  // Push queue and flush
  // ---------------------------------------------------------------------------

  /** The batches of a flush, from batch number `k` on: consecutive slices of `rest` of
      `size` events, the last one possibly shorter. */
  function Batches(rest: seq<LocalEvent>, size: nat): (bs: seq<seq<LocalEvent>>)
    requires size > 0
    ensures forall j :: 0 <= j < |bs| ==> 0 < |bs[j]| <= size
    ensures forall j :: 0 <= j < |bs| - 1 ==> |bs[j]| == size
    decreases |rest|
  {
    if |rest| == 0 then []
    else if |rest| <= size then [rest]
    else [rest[..size]] + Batches(rest[size..], size)
  }

  function Concat(bs: seq<seq<LocalEvent>>): seq<LocalEvent> {
    if |bs| == 0 then [] else bs[0] + Concat(bs[1..])
  }

  /** The batches cover every event once, in order. */
  lemma {:induction false} BatchesCover(rest: seq<LocalEvent>, size: nat)
    requires size > 0
    ensures Concat(Batches(rest, size)) == rest
    decreases |rest|
  {
    if |rest| > size {
      BatchesCover(rest[size..], size);
      assert Batches(rest, size)[1..] == Batches(rest[size..], size);
      assert rest == rest[..size] + rest[size..];
    }
  }

  /** The text `errors` records for a failed batch. */
  function ErrorLine(k: nat, message: string): string {
    "batch " + NatToString(k) + ": " + message
  }

  /** The outcome of POSTing batch number `k`: None on success, else the exception's text. */
  type Post = (nat, seq<LocalEvent>) -> Option<string>

  /** The size of the first batch of `rest`. */
  function HeadSize(rest: seq<LocalEvent>, size: nat): nat {
    if |rest| <= size then |rest| else size
  }

  /** What the batch loop accumulates from batch number `k` on: the events of successful
      batches, and one error line per failed batch. */
  function FlushFrom(rest: seq<LocalEvent>, size: nat, k: nat, post: Post): (r: (nat, seq<string>))
    requires size > 0
    ensures r.0 <= |rest|
    decreases |rest|
  {
    if |rest| == 0 then (0, [])
    else
      var n := HeadSize(rest, size);
      var tail := FlushFrom(rest[n..], size, k + 1, post);
      var outcome := post(k, rest[..n]);
      if outcome.None? then (n + tail.0, tail.1)
      else (tail.0, [ErrorLine(k, outcome.value)] + tail.1)
  }

  /** Every event is pushed exactly when no batch failed, and there are no more error lines
      than events. */
  lemma {:induction false} FlushFromErrors(rest: seq<LocalEvent>, size: nat, k: nat, post: Post)
    requires size > 0
    ensures FlushFrom(rest, size, k, post).0 == |rest| <==> FlushFrom(rest, size, k, post).1 == []
    ensures |FlushFrom(rest, size, k, post).1| <= |rest|
    decreases |rest|
  {
    if |rest| > 0 {
      var n := HeadSize(rest, size);
      FlushFromErrors(rest[n..], size, k + 1, post);
    }
  }

  /** The events of the batches that failed, in order: what the queue should keep. They are
      as many as the events not pushed. */
  function Unsent(rest: seq<LocalEvent>, size: nat, k: nat, post: Post): (u: seq<LocalEvent>)
    requires size > 0
    ensures |u| == |rest| - FlushFrom(rest, size, k, post).0
    decreases |rest|
  {
    if |rest| == 0 then []
    else
      var n := HeadSize(rest, size);
      (if post(k, rest[..n]).None? then [] else rest[..n]) + Unsent(rest[n..], size, k + 1, post)
  }

  /** The events of the batches that succeeded, in order. */
  function Sent(rest: seq<LocalEvent>, size: nat, k: nat, post: Post): (s: seq<LocalEvent>)
    requires size > 0
    decreases |rest|
  {
    if |rest| == 0 then []
    else
      var n := HeadSize(rest, size);
      (if post(k, rest[..n]).None? then rest[..n] else []) + Sent(rest[n..], size, k + 1, post)
  }

  /** `pushed` is the number of events sent, never more than the queue; everything was pushed
      exactly when no batch failed; and the sent and the unsent events together are the
      queue. */
  lemma {:induction false} FlushCounts(rest: seq<LocalEvent>, size: nat, k: nat, post: Post)
    requires size > 0
    ensures FlushFrom(rest, size, k, post).0 == |Sent(rest, size, k, post)| <= |rest|
    ensures FlushFrom(rest, size, k, post).0 == |rest| <==> FlushFrom(rest, size, k, post).1 == []
    ensures multiset(Sent(rest, size, k, post)) + multiset(Unsent(rest, size, k, post)) == multiset(rest)
    decreases |rest|
  {
    if |rest| > 0 {
      var n := HeadSize(rest, size);
      FlushCounts(rest[n..], size, k + 1, post);
      assert rest == rest[..n] + rest[n..];
    }
  }

  lemma MulAtLeast(x: int, size: int)
    requires x >= 1 && size > 0
    ensures x * size >= size
  {
  }

  lemma MulStep(k: nat, size: nat)
    ensures (k + 1) * size == k * size + size
  {
  }

  /** Batch number `k` starts at offset `k * size`, so `i // batch_size` is its number. */
  lemma DivExact(k: nat, size: nat)
    requires size > 0
    ensures (k * size) / size == k
  {
    var q := (k * size) / size;
    var r := (k * size) % size;
    assert k * size == q * size + r;
    assert (k - q) * size == r;
    if q < k { MulAtLeast(k - q, size); }
    else if q > k { MulAtLeast(q - k, size); }
  }

  /** One batch of the loop: the slice at offset `i == k * size` is batch number `k`, and
      the flush of the rest of the queue is that batch's outcome followed by the flush from
      the next offset. */
  lemma BatchStep(queued: seq<LocalEvent>, size: nat, i: nat, k: nat, post: Post)
    requires size > 0 && i < |queued| && i == k * size
    ensures var end := if i + size <= |queued| then i + size else |queued|;
            var tail := FlushFrom(queued[end..], size, k + 1, post);
            i / size == k && (end < |queued| ==> end == (k + 1) * size) &&
            FlushFrom(queued[i..], size, k, post) ==
              if post(k, queued[i..end]).None? then (end - i + tail.0, tail.1)
              else (tail.0, [ErrorLine(k, post(k, queued[i..end]).value)] + tail.1)
  {
    var end := if i + size <= |queued| then i + size else |queued|;
    assert queued[i..end] == queued[i..][..HeadSize(queued[i..], size)];
    assert queued[end..] == queued[i..][HeadSize(queued[i..], size)..];
    DivExact(k, size);
    MulStep(k, size);
  }

  /** The batch loop of `flush_push_queue`: POSTs consecutive slices of `batch_size` events,
      adding the size of each batch that succeeds to `pushed` and recording an error line,
      numbered `i // batch_size`, for each that fails. */
  method PostBatches(queued: seq<LocalEvent>, batchSize: nat, post: Post)
    returns (totalPushed: nat, errors: seq<string>)
    requires batchSize > 0
    ensures (totalPushed, errors) == FlushFrom(queued, batchSize, 0, post)
  {
    totalPushed, errors := 0, [];
    var i, k := 0, 0;
    ghost var whole := FlushFrom(queued, batchSize, 0, post);
    assert queued[0..] == queued;
    while i < |queued|
      invariant 0 <= i <= |queued| && (i < |queued| ==> i == k * batchSize)
      invariant var tail := FlushFrom(queued[i..], batchSize, k, post);
                totalPushed + tail.0 == whole.0 && errors + tail.1 == whole.1
      decreases |queued| - i
    {
      // `events[i:i + batch_size]`, which stops at the end of the queue.
      var end := if i + batchSize <= |queued| then i + batchSize else |queued|;
      var batch := queued[i..end];
      BatchStep(queued, batchSize, i, k, post);
      var outcome := post(k, batch);
      if outcome.None? {
        totalPushed := totalPushed + |batch|;
      } else {
        errors := errors + [ErrorLine(i / batchSize, outcome.value)];
      }
      i, k := end, k + 1;
    }
    assert queued[i..] == [];
    assert errors + [] == errors;
  }

  /** The flush statistics: skipped without settings, an unreadable queue, a batch size of 0
      (`range` raises), or the counts. */
  datatype FlushStats =
    | Skipped
    | ReadFailed
    | BatchSizeZero
    | Flushed(status: string, pushed: nat, total: Option<nat>, errors: seq<string>)

  /** The status word of a flush that reached the batch loop. */
  function FlushStatus(pushed: nat, errors: seq<string>): string {
    if errors == [] then "ok" else if pushed > 0 then "partial" else "error"
  }

  /** `.push_queue.jsonl`: whether it exists, whether some line fails to parse, and its
      events. */
  class PushQueue {
    var present: bool
    var garbled: bool
    var events: seq<LocalEvent>

    constructor ()
      ensures !present && !garbled && events == []
    {
      present, garbled, events := false, false, [];
    }

    /** `_queue_for_push`: appends the renamed event, creating the file if needed. */
    method Enqueue(e: LocalEvent)
      modifies this
      ensures present && garbled == old(garbled) && events == old(events) + [QueueEntry(e)]
    {
      present := true;
      events := events + [QueueEntry(e)];
    }

    /** `flush_push_queue`. Without an API URL and key nothing happens; a queue that is missing
        or empty counts as flushed; otherwise the queue is POSTed batch by batch. When every
        event was pushed the file is removed; when some were, it is rewritten as the events
        after the first `pushed` ones; when none were, it is left as it is. */
    method Flush(config: Config, post: Post) returns (r: FlushStats)
      modifies this
      ensures !Truthy(config.apiUrl) || !Truthy(config.apiKey) ==> r == Skipped && unchanged(this)
      ensures Truthy(config.apiUrl) && Truthy(config.apiKey) ==>
                if !old(present) then r == Flushed("ok", 0, None, []) && unchanged(this)
                else if old(garbled) then r == ReadFailed && unchanged(this)
                else if old(events) == [] then
                  r == Flushed("ok", 0, None, []) && !present && events == [] && garbled == old(garbled)
                else if config.pushBatchSize.GetOr(DefaultBatchSize) == 0 then
                  r == BatchSizeZero && unchanged(this)
                else if config.pushBatchSize.GetOr(DefaultBatchSize) < 0 then
                  r == Flushed("ok", 0, Some(|old(events)|), []) && unchanged(this)
                else
                  var f := FlushFrom(old(events), config.pushBatchSize.GetOr(DefaultBatchSize), 0, post);
                  r == Flushed(FlushStatus(f.0, f.1), f.0, Some(|old(events)|), f.1) &&
                  garbled == old(garbled) &&
                  (f.0 == |old(events)| ==> !present && events == []) &&
                  (0 < f.0 < |old(events)| ==> present && events == old(events)[f.0..]) &&
                  (f.0 == 0 ==> present && events == old(events))
    {
      if !Truthy(config.apiUrl) || !Truthy(config.apiKey) {
        return Skipped;
      }
      if !present {
        return Flushed("ok", 0, None, []);
      }
      if garbled {
        return ReadFailed;
      }
      var queued := events;
      if queued == [] {
        present, events := false, [];
        return Flushed("ok", 0, None, []);
      }
      var batchSize := config.pushBatchSize.GetOr(DefaultBatchSize);
      if batchSize == 0 {
        return BatchSizeZero;
      }
      if batchSize < 0 {
        // `range(0, n, negative)` is empty: nothing is sent and the queue stays.
        return Flushed("ok", 0, Some(|queued|), []);
      }
      var totalPushed, errors := PostBatches(queued, batchSize, post);
      FlushCounts(queued, batchSize, 0, post);
      if totalPushed == |queued| {
        present, events := false, [];
      } else if totalPushed > 0 {
        events := queued[totalPushed..];
      }
      r := Flushed(FlushStatus(totalPushed, errors), totalPushed, Some(|queued|), errors);
    }
  }

  /** After a partial flush the queue keeps the events after the first `pushed` ones, not the
      unsent ones: with batches of one event and only the first of two POSTs failing, the
      rewritten queue holds the event that was delivered and drops the one that was not. */
  lemma SuffixRequeuesSentEvent(a: LocalEvent, b: LocalEvent)
    requires a != b
    ensures var post: Post := (k: nat, batch: seq<LocalEvent>) => if k == 0 then Some("HTTP Error 500") else None;
            var pushed := FlushFrom([a, b], 1, 0, post).0;
            pushed == 1 && [a, b][pushed..] == [b] &&
            Sent([a, b], 1, 0, post) == [b] && Unsent([a, b], 1, 0, post) == [a]
  {
    var post: Post := (k: nat, batch: seq<LocalEvent>) => if k == 0 then Some("HTTP Error 500") else None;
    assert [a, b][..1] == [a] && [a, b][1..] == [b];
    assert [b][..1] == [b] && [b][1..] == [];
    assert post(0, [a]) == Some("HTTP Error 500") && post(1, [b]) == None;
    assert FlushFrom([b], 1, 1, post).0 == 1;
    assert Sent([b], 1, 1, post) == [b] && Unsent([b], 1, 1, post) == [];
  }

  // ---------------------------------------------------------------------------
  // Session index
  // ---------------------------------------------------------------------------

  type Record = map<string, Json>

  /** A session's entry after `update`: the old keys, with `data` added on top and winning. */
  function Merged(entry: Option<Record>, data: Record): (r: Record)
    ensures forall key :: key in r <==> key in data || (entry.Some? && key in entry.value)
    ensures forall key :: key in data ==> r[key] == data[key]
    ensures entry.Some? ==> forall key :: key in entry.value && key !in data ==> r[key] == entry.value[key]
  {
    if entry.Some? then entry.value + data else data
  }

  /** `sessions.json`: the index from session id to its summary record. A file that exists but
      does not parse is `garbled`. */
  class SessionIndex {
    var garbled: bool
    var sessions: map<string, Record>

    constructor ()
      ensures !garbled && sessions == map[]
    {
      garbled, sessions := false, map[];
    }

    /** `update_session_index`: merges `data` into the session's entry, or adds it for a new
        session, and writes the index back. An unparseable file is read as empty, so its
        other sessions are lost. */
    method Update(sessionId: string, data: Record)
      modifies this
      ensures !garbled
      ensures var before := if old(garbled) then map[] else old(sessions);
              sessions == before[sessionId := Merged(if sessionId in before then Some(before[sessionId]) else None, data)]
    {
      var index := if garbled then map[] else sessions;
      if sessionId in index {
        index := index[sessionId := index[sessionId] + data];
      } else {
        index := index[sessionId := data];
      }
      garbled, sessions := false, index;
    }
  }

  /** An update touches only its own session, and two updates of it merge like one update
      with both records, the later winning. */
  lemma UpdatesCompose(index: map<string, Record>, sid: string, d1: Record, d2: Record, other: string)
    requires other != sid
    ensures var once := index[sid := Merged(if sid in index then Some(index[sid]) else None, d1)];
            var twice := once[sid := Merged(Some(once[sid]), d2)];
            (other in twice <==> other in index) && (other in index ==> twice[other] == index[other]) &&
            twice[sid] == Merged(if sid in index then Some(index[sid]) else None, d1 + d2)
  {
    var e := if sid in index then Some(index[sid]) else None;
    var once := index[sid := Merged(e, d1)];
    var twice := once[sid := Merged(Some(once[sid]), d2)];
    assert twice[sid] == Merged(e, d1 + d2);
  }

  // ---------------------------------------------------------------------------
  // Pending tool stacks
  // ---------------------------------------------------------------------------

  /** An entry of `.pending/<session>.json`; the monotonic and wall clocks are parameters. */
  datatype PendingEntry = PendingEntry(toolName: string, correlationId: string, startedAt: int, startedTs: string)

  /** A pending file: a parsed stack, or one whose text does not parse. */
  datatype PendingFile = Stack(entries: seq<PendingEntry>) | Garbled

  /** The index of the last entry for `toolName`, if any. */
  function LastMatch(s: seq<PendingEntry>, toolName: string): (r: Option<nat>)
    ensures r.None? <==> forall j :: 0 <= j < |s| ==> s[j].toolName != toolName
    ensures r.Some? ==> r.value < |s| && s[r.value].toolName == toolName &&
                        forall j :: r.value < j < |s| ==> s[j].toolName != toolName
    decreases |s|
  {
    if |s| == 0 then None
    else if s[|s| - 1].toolName == toolName then Some(|s| - 1)
    else LastMatch(s[..|s| - 1], toolName)
  }

  function RemoveAt(s: seq<PendingEntry>, i: nat): (r: seq<PendingEntry>)
    requires i < |s|
    ensures |r| == |s| - 1
    ensures forall j :: 0 <= j < i ==> r[j] == s[j]
    ensures forall j :: i <= j < |r| ==> r[j] == s[j + 1]
  {
    s[..i] + s[i + 1..]
  }

  /** Popping a tool right after pushing it gives back that entry and the stack as it was. */
  lemma PopUndoesPush(s: seq<PendingEntry>, e: PendingEntry)
    ensures LastMatch(s + [e], e.toolName) == Some(|s|)
    ensures RemoveAt(s + [e], |s|) == s
  {
    assert (s + [e])[..|s|] == s;
  }

  /** The stack a push starts from: the parsed stack, or empty when the file is missing or
      does not parse. */
  function StackOf(files: map<string, PendingFile>, sessionId: string): seq<PendingEntry> {
    if sessionId in files && files[sessionId].Stack? then files[sessionId].entries else []
  }

  /** The `.pending` directory: one stack file per session. */
  class PendingStore {
    var files: map<string, PendingFile>

    constructor ()
      ensures files == map[]
    {
      files := map[];
    }

    /** `push_pending`: appends an entry at the top of the session's stack. */
    method PushPending(sessionId: string, toolName: string, correlationId: string,
                       monotonicNs: int, nowIso: string)
      modifies this
      ensures files == old(files)[sessionId :=
                Stack(StackOf(old(files), sessionId) + [PendingEntry(toolName, correlationId, monotonicNs, nowIso)])]
    {
      var stack := StackOf(files, sessionId);
      stack := stack + [PendingEntry(toolName, correlationId, monotonicNs, nowIso)];
      files := files[sessionId := Stack(stack)];
    }

    /** `pop_pending`: removes and returns the most recent entry for `toolName`, scanning from
        the top; the other entries keep their order. Nothing is found, and nothing changes,
        when the file is missing, does not parse, or holds no entry for the tool. */
    method PopPending(sessionId: string, toolName: string) returns (r: Option<PendingEntry>)
      modifies this
      ensures sessionId !in old(files) || old(files)[sessionId].Garbled? ==> r.None? && files == old(files)
      ensures sessionId in old(files) && old(files)[sessionId].Stack? ==>
                var s := old(files)[sessionId].entries;
                var m := LastMatch(s, toolName);
                if m.None? then r.None? && files == old(files)
                else r == Some(s[m.value]) && files == old(files)[sessionId := Stack(RemoveAt(s, m.value))]
    {
      if sessionId !in files || files[sessionId].Garbled? {
        return None;
      }
      var stack := files[sessionId].entries;
      var i := |stack|;
      while i > 0
        invariant 0 <= i <= |stack|
        invariant LastMatch(stack, toolName) == LastMatch(stack[..i], toolName)
        decreases i
      {
        assert stack[..i][..i - 1] == stack[..i - 1];
        if stack[i - 1].toolName == toolName {
          files := files[sessionId := Stack(RemoveAt(stack, i - 1))];
          return Some(stack[i - 1]);
        }
        i := i - 1;
      }
      return None;
    }
  }

  // ---------------------------------------------------------------------------
  // Retention cleanup
  // ---------------------------------------------------------------------------

  /** The dates of the events files to keep: those not below the cutoff in string order. */
  function KeptDates(dates: seq<string>, cutoff: string): (r: seq<string>)
    ensures |r| <= |dates|
    decreases |dates|
  {
    if |dates| == 0 then [] else Keep(dates[0], cutoff) + KeptDates(dates[1..], cutoff)
  }

  /** What one events file contributes to the kept dates. */
  function Keep(d: string, cutoff: string): seq<string> {
    if Less(d, cutoff) then [] else [d]
  }

  const StaleSeconds := 86400

  /** The telemetry directory: the date of each `events-<date>.jsonl` file, in listing order,
      and the modification time of each pending file. */
  class TelemetryDir {
    var eventDates: seq<string>
    var pendingMtimes: map<string, int>

    constructor (dates: seq<string>, mtimes: map<string, int>)
      ensures eventDates == dates && pendingMtimes == mtimes
    {
      eventDates, pendingMtimes := dates, mtimes;
    }

    /** `cleanup_old_events`: deletes the events files dated before `cutoff` and counts them,
        then deletes the pending files older than a day. `cutoff` is the formatted date
        `retention_days` before now. */
    method CleanupOldEvents(cutoff: string, now: int) returns (deleted: nat)
      modifies this
      ensures eventDates == KeptDates(old(eventDates), cutoff)
      ensures deleted == |old(eventDates)| - |eventDates|
      ensures pendingMtimes == map f | f in old(pendingMtimes) && now - old(pendingMtimes)[f] <= StaleSeconds :: old(pendingMtimes)[f]
    {
      var kept;
      kept, deleted := KeepDates(eventDates, cutoff);
      var mtimes := pendingMtimes;
      eventDates := kept;
      pendingMtimes := map f | f in mtimes && now - mtimes[f] <= StaleSeconds :: mtimes[f];
    }
  }

  /** The date loop of `cleanup_old_events`: the kept dates and the number deleted. */
  method KeepDates(dates: seq<string>, cutoff: string) returns (kept: seq<string>, deleted: nat)
    ensures kept == KeptDates(dates, cutoff)
    ensures deleted == |dates| - |kept|
  {
    kept, deleted := [], 0;
    var i := 0;
    while i < |dates|
      invariant 0 <= i <= |dates|
      invariant kept == KeptDates(dates[..i], cutoff)
      invariant deleted + |kept| == i
    {
      KeptDatesStep(dates, i, cutoff);
      if Less(dates[i], cutoff) {
        deleted := deleted + 1;
      } else {
        kept := kept + [dates[i]];
      }
      i := i + 1;
    }
    assert dates[..i] == dates;
  }

  lemma {:induction false} KeptDatesAppend(dates: seq<string>, d: string, cutoff: string)
    ensures KeptDates(dates + [d], cutoff) == KeptDates(dates, cutoff) + Keep(d, cutoff)
    decreases |dates|
  {
    if |dates| == 0 {
      assert [d][1..] == [];
    } else {
      var rest := dates[1..];
      assert (dates + [d])[0] == dates[0];
      assert (dates + [d])[1..] == rest + [d];
      KeptDatesAppend(rest, d, cutoff);
      var k0, kr, kd := Keep(dates[0], cutoff), KeptDates(rest, cutoff), Keep(d, cutoff);
      assert KeptDates(dates + [d], cutoff) == k0 + (kr + kd);
      assert k0 + (kr + kd) == (k0 + kr) + kd;
    }
  }

  lemma KeptDatesStep(dates: seq<string>, i: nat, cutoff: string)
    requires i < |dates|
    ensures KeptDates(dates[..i + 1], cutoff) == KeptDates(dates[..i], cutoff) + Keep(dates[i], cutoff)
  {
    assert dates[..i + 1] == dates[..i] + [dates[i]];
    KeptDatesAppend(dates[..i], dates[i], cutoff);
  }

  /** The kept dates are exactly the dates not below the cutoff. */
  lemma {:induction false} KeptDatesMembers(dates: seq<string>, cutoff: string, d: string)
    ensures d in KeptDates(dates, cutoff) <==> d in dates && !Less(d, cutoff)
    decreases |dates|
  {
    if |dates| > 0 {
      KeptDatesMembers(dates[1..], cutoff, d);
      assert dates == [dates[0]] + dates[1..];
    }
  }

  /** A later cutoff keeps no file an earlier one deletes. */
  lemma {:induction false} LaterCutoffKeepsLess(dates: seq<string>, early: string, late: string)
    requires LessEq(early, late)
    ensures forall d :: d in KeptDates(dates, late) ==> d in KeptDates(dates, early)
  {
    forall d | d in KeptDates(dates, late)
      ensures d in KeptDates(dates, early)
    {
      KeptDatesMembers(dates, late, d);
      KeptDatesMembers(dates, early, d);
      if Less(d, early) {
        if early == late {
        } else {
          LessTransitive(d, early, late);
        }
      }
    }
  }

  // ---------------------------------------------------------------------------
  // Subagent transcripts
  // ---------------------------------------------------------------------------

  /** A line of a transcript file: blank once stripped, not JSON, or a JSON value. */
  datatype TranscriptLine = Blank | NotJson | Parsed(entry: Json)

  /** What `parse_agent_transcript` gives: `{}` for a missing or unreadable file, an escaping
      exception for an entry of a shape the code does not expect, or the counts. */
  datatype TranscriptStats =
    | NoTranscript
    | Raised
    | Stats(toolCounts: map<Json, int>, totalTools: int, turns: nat)

  /** How an entry is read: skipped, an assistant turn with its message's content blocks, or
      an `AttributeError`/`TypeError`. A string or dict content is iterated without meeting
      a dict, so it holds no blocks. */
  datatype Reading = Skip | Turn(blocks: seq<Json>) | Fails

  function ReadEntry(entry: Json): (r: Reading)
    ensures r.Skip? <==> entry.JObj? && Member(entry, "type") != Some(JStr("assistant"))
    ensures r.Turn? ==> Member(entry, "type") == Some(JStr("assistant"))
    ensures r.Turn? && |r.blocks| > 0 ==>
              Member(Member(entry, "message").GetOr(JObj(map[])), "content") == Some(JArr(r.blocks))
  {
    if !entry.JObj? then Fails
    else if Member(entry, "type") != Some(JStr("assistant")) then Skip
    else
      var message := Member(entry, "message").GetOr(JObj(map[]));
      if !message.JObj? then Fails
      else
        var content := Member(message, "content").GetOr(JArr([]));
        if content.JArr? then Turn(content.items)
        else if content.JStr? || content.JObj? then Turn([])
        else Fails
  }

  /** The tool name a content block contributes: the `name` of a `tool_use` dict, "unknown"
      when it has none. */
  function BlockTool(block: Json): Option<Json> {
    if block.JObj? && Member(block, "type") == Some(JStr("tool_use")) then
      Some(Member(block, "name").GetOr(JStr("unknown")))
    else None
  }

  /** A name Python can use as a Counter key: not a dict and not a list. */
  predicate Hashable(name: Json) {
    !name.JObj? && !name.JArr?
  }

  predicate BlockFails(block: Json) {
    BlockTool(block).Some? && !Hashable(BlockTool(block).value)
  }

  /** The tool names of a list of content blocks, in order, or None when counting one of them
      raises. */
  function BlockNames(blocks: seq<Json>): (names: Option<seq<Json>>)
    ensures names.Some? ==> |names.value| <= |blocks|
    decreases |blocks|
  {
    if |blocks| == 0 then Some([])
    else
      var init, tool := BlockNames(blocks[..|blocks| - 1]), BlockTool(blocks[|blocks| - 1]);
      if init.None? then None
      else if tool.None? then init
      else if !Hashable(tool.value) then None
      else Some(init.value + [tool.value])
  }

  /** Counting raises exactly when some block has a name that cannot be a Counter key. */
  lemma {:induction false} BlockNamesFail(blocks: seq<Json>)
    ensures BlockNames(blocks).None? <==> exists j :: 0 <= j < |blocks| && BlockFails(blocks[j])
    decreases |blocks|
  {
    if |blocks| > 0 {
      var init := blocks[..|blocks| - 1];
      BlockNamesFail(init);
      if exists j :: 0 <= j < |init| && BlockFails(init[j]) {
        var j :| 0 <= j < |init| && BlockFails(init[j]);
        assert blocks[j] == init[j];
      }
      if exists j :: 0 <= j < |blocks| && BlockFails(blocks[j]) {
        var j :| 0 <= j < |blocks| && BlockFails(blocks[j]);
        if j < |init| { assert init[j] == blocks[j]; }
      }
    }
  }

  predicate LineFails(line: TranscriptLine) {
    line.Parsed? &&
    (ReadEntry(line.entry).Fails? || (ReadEntry(line.entry).Turn? && BlockNames(ReadEntry(line.entry).blocks).None?))
  }

  /** A line holding an assistant turn. */
  predicate IsTurn(line: TranscriptLine) {
    line.Parsed? && ReadEntry(line.entry).Turn?
  }

  /** The assistant turns of a transcript. */
  function Turns(lines: seq<TranscriptLine>): nat
    decreases |lines|
  {
    if |lines| == 0 then 0
    else Turns(lines[..|lines| - 1]) + (if IsTurn(lines[|lines| - 1]) then 1 else 0)
  }

  /** The tool names a line contributes: those of an assistant turn, none otherwise. */
  function LineNames(line: TranscriptLine): seq<Json> {
    if IsTurn(line) then BlockNames(ReadEntry(line.entry).blocks).GetOr([]) else []
  }

  /** The tool uses of a transcript, in order. */
  function ToolNames(lines: seq<TranscriptLine>): seq<Json>
    decreases |lines|
  {
    if |lines| == 0 then []
    else
      var last := lines[|lines| - 1];
      ToolNames(lines[..|lines| - 1]) + LineNames(last)
  }

  /** Counting one more name keeps the counts equal to the base plus the names counted. */
  ghost predicate CountsNames(c: map<Json, int>, base: map<Json, int>, names: seq<Json>) {
    forall x :: Counters.Get(c, x) == Counters.Get(base, x) + multiset(names)[x]
  }

  lemma CountsCompose(c2: map<Json, int>, c1: map<Json, int>, c0: map<Json, int>, a: seq<Json>, b: seq<Json>, ab: seq<Json>)
    requires CountsNames(c1, c0, a) && CountsNames(c2, c1, b) && ab == a + b
    ensures CountsNames(c2, c0, ab)
  {
    assert multiset(a + b) == multiset(a) + multiset(b);
  }

  lemma CountOneMore(c: map<Json, int>, base: map<Json, int>, names: seq<Json>, n: Json)
    requires CountsNames(c, base, names)
    ensures CountsNames(Counters.Add(c, n, 1), base, names + [n])
  {
    assert multiset(names + [n]) == multiset(names) + multiset{n};
  }

  lemma BlockNamesStep(blocks: seq<Json>, i: nat)
    requires i < |blocks|
    ensures var init, tool := BlockNames(blocks[..i]), BlockTool(blocks[i]);
            BlockNames(blocks[..i + 1]) ==
              if init.None? then None
              else if tool.None? then init
              else if !Hashable(tool.value) then None
              else Some(init.value + [tool.value])
  {
    assert blocks[..i + 1][..i] == blocks[..i];
  }

  /** Once counting has raised, it has raised for the whole list. */
  lemma BlockNamesFailPrefix(blocks: seq<Json>, i: nat)
    requires i <= |blocks| && BlockNames(blocks[..i]).None?
    ensures BlockNames(blocks).None?
  {
    BlockNamesFail(blocks[..i]);
    var j :| 0 <= j < i && BlockFails(blocks[..i][j]);
    BlockNamesFail(blocks);
  }

  /** One step of the inner loop: a block without a name changes nothing, a block with a
      hashable name counts it once. */
  lemma CountStep(blocks: seq<Json>, i: nat, counts: map<Json, int>, c: map<Json, int>, names: seq<Json>)
    requires i < |blocks| && BlockNames(blocks[..i]) == Some(names) && CountsNames(c, counts, names)
    requires !BlockFails(blocks[i])
    ensures var tool := BlockTool(blocks[i]);
            var names' := if tool.Some? then names + [tool.value] else names;
            BlockNames(blocks[..i + 1]) == Some(names') &&
            CountsNames(if tool.Some? then Counters.Add(c, tool.value, 1) else c, counts, names')
  {
    BlockNamesStep(blocks, i);
    var tool := BlockTool(blocks[i]);
    if tool.Some? {
      CountOneMore(c, counts, names, tool.value);
    }
  }

  /** The inner loop: counts the `tool_use` blocks of one message into `counts` and `total`;
      false when a name cannot be a Counter key. */
  method CountBlocks(counts: map<Json, int>, total: int, blocks: seq<Json>)
    returns (ok: bool, counts': map<Json, int>, total': int)
    ensures ok <==> BlockNames(blocks).Some?
    ensures ok ==> CountsNames(counts', counts, BlockNames(blocks).value)
    ensures ok ==> total' == total + |BlockNames(blocks).value|
  {
    counts', total' := counts, total;
    ghost var names: seq<Json> := [];
    var i := 0;
    while i < |blocks|
      invariant 0 <= i <= |blocks|
      invariant BlockNames(blocks[..i]) == Some(names)
      invariant CountsNames(counts', counts, names)
      invariant total' == total + |names|
    {
      var tool := BlockTool(blocks[i]);
      if tool.Some? && !Hashable(tool.value) {
        BlockNamesStep(blocks, i);
        BlockNamesFailPrefix(blocks, i + 1);
        return false, counts', total';
      }
      CountStep(blocks, i, counts, counts', names);
      if tool.Some? {
        counts', total' := Counters.Add(counts', tool.value, 1), total' + 1;
        names := names + [tool.value];
      }
      i := i + 1;
    }
    assert blocks[..i] == blocks;
    ok := true;
  }

  /** No line of the transcript raises. */
  predicate NoLineFails(lines: seq<TranscriptLine>)
    decreases |lines|
  {
    |lines| == 0 || (NoLineFails(lines[..|lines| - 1]) && !LineFails(lines[|lines| - 1]))
  }

  lemma {:induction false} NoLineFailsIff(lines: seq<TranscriptLine>)
    ensures NoLineFails(lines) <==> forall j :: 0 <= j < |lines| ==> !LineFails(lines[j])
    decreases |lines|
  {
    if |lines| > 0 {
      var init := lines[..|lines| - 1];
      NoLineFailsIff(init);
      assert forall j :: 0 <= j < |init| ==> init[j] == lines[j];
    }
  }

  lemma TranscriptStep(lines: seq<TranscriptLine>, i: nat)
    requires i < |lines|
    ensures Turns(lines[..i + 1]) == Turns(lines[..i]) + (if IsTurn(lines[i]) then 1 else 0)
    ensures ToolNames(lines[..i + 1]) == ToolNames(lines[..i]) + LineNames(lines[i])
    ensures NoLineFails(lines[..i + 1]) == (NoLineFails(lines[..i]) && !LineFails(lines[i]))
  {
    assert lines[..i + 1][..i] == lines[..i];
  }

  /** One line of the transcript: an assistant turn counts itself and its tool uses. */
  method CountLine(counts: map<Json, int>, total: int, turns: nat, line: TranscriptLine)
    returns (ok: bool, counts': map<Json, int>, total': int, turns': nat)
    ensures ok <==> !LineFails(line)
    ensures ok ==> CountsNames(counts', counts, LineNames(line)) && total' == total + |LineNames(line)|
    ensures ok ==> turns' == turns + (if IsTurn(line) then 1 else 0)
  {
    ok, counts', total', turns' := true, counts, total, turns;
    if line.Parsed? {
      var reading := ReadEntry(line.entry);
      if reading.Fails? {
        return false, counts, total, turns;
      }
      if reading.Turn? {
        turns' := turns + 1;
        ok, counts', total' := CountBlocks(counts, total, reading.blocks);
      }
    }
  }

  /** The outer loop: counts the assistant turns and their tool uses line by line; false when
      a line raises. */
  method CountLines(lines: seq<TranscriptLine>) returns (ok: bool, counts: map<Json, int>, total: int, turns: nat)
    ensures !ok ==> exists j :: 0 <= j < |lines| && LineFails(lines[j])
    ensures ok ==> NoLineFails(lines) && turns == Turns(lines) && total == |ToolNames(lines)|
    ensures ok ==> CountsNames(counts, map[], ToolNames(lines))
  {
    counts, total, turns := map[], 0, 0;
    var i := 0;
    while i < |lines|
      invariant 0 <= i <= |lines|
      invariant NoLineFails(lines[..i])
      invariant turns == Turns(lines[..i])
      invariant total == |ToolNames(lines[..i])|
      invariant CountsNames(counts, map[], ToolNames(lines[..i]))
    {
      TranscriptStep(lines, i);
      var ok', counts', total', turns' := CountLine(counts, total, turns, lines[i]);
      if !ok' {
        return false, counts, total, turns;
      }
      CountsCompose(counts', counts, map[], ToolNames(lines[..i]), LineNames(lines[i]), ToolNames(lines[..i + 1]));
      counts, total, turns := counts', total', turns';
      i := i + 1;
    }
    assert lines[..i] == lines;
    ok := true;
  }

  /** `parse_agent_transcript`: counts the assistant turns and, by name, the `tool_use` blocks
      of their messages; `total_tools` is the sum of the counts. */
  method ParseAgentTranscript(transcript: Option<seq<TranscriptLine>>) returns (r: TranscriptStats)
    ensures transcript.None? <==> r.NoTranscript?
    ensures transcript.Some? ==> (r.Raised? <==> exists i :: 0 <= i < |transcript.value| && LineFails(transcript.value[i]))
    ensures r.Stats? ==> var lines := transcript.value;
              r.turns == Turns(lines) && r.totalTools == |ToolNames(lines)| &&
              r.totalTools == Counters.Total(r.toolCounts) &&
              forall name :: Counters.Get(r.toolCounts, name) == multiset(ToolNames(lines))[name]
  {
    if transcript.None? {
      return NoTranscript;
    }
    var lines := transcript.value;
    var ok, counts, total, turns := CountLines(lines);
    if !ok {
      return Raised;
    }
    NoLineFailsIff(lines);
    Counters.TotalOfMultiset(counts, multiset(ToolNames(lines)));
    r := Stats(counts, total, turns);
  }
}
