/** Telemetry event records (src/types/events.ts). */
module EventTypes {
  import opened Wrappers
  import opened Json

  /** The nine event kinds the server accepts. */
  datatype EventType =
    | SessionStart | SessionEnd | ToolUse | ToolResult | PromptSubmit
    | AssistantStop | SubagentStop | PreCompact | Error
  {
    function Name(): string {
      match this
      case SessionStart => "session_start"
      case SessionEnd => "session_end"
      case ToolUse => "tool_use"
      case ToolResult => "tool_result"
      case PromptSubmit => "prompt_submit"
      case AssistantStop => "assistant_stop"
      case SubagentStop => "subagent_stop"
      case PreCompact => "pre_compact"
      case Error => "error"
    }

    /** Events the session rollup counts as tool activity. */
    predicate IsTool() {
      this == ToolUse || this == ToolResult
    }
  }

  /** The enum check: the event type a wire name denotes, if any. */
  function ParseEventType(name: string): (r: Option<EventType>)
    ensures r.Some? ==> r.value.Name() == name
  {
    if name == "session_start" then Some(SessionStart)
    else if name == "session_end" then Some(SessionEnd)
    else if name == "tool_use" then Some(ToolUse)
    else if name == "tool_result" then Some(ToolResult)
    else if name == "prompt_submit" then Some(PromptSubmit)
    else if name == "assistant_stop" then Some(AssistantStop)
    else if name == "subagent_stop" then Some(SubagentStop)
    else if name == "pre_compact" then Some(PreCompact)
    else if name == "error" then Some(Error)
    else None
  }

  /** Every event type's name parses back to it, so the names are distinct. */
  lemma EventTypeNamesRoundTrip(t: EventType)
    ensures ParseEventType(t.Name()) == Some(t)
  {
  }

  /** One event of an ingest batch. */
  datatype IngestEvent = IngestEvent(
    ts: string, event: EventType, sessionId: string, seqNo: int, data: map<string, Json>)
}
