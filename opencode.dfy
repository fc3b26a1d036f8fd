/**
 * The OpenCode `--format json` event stream as the attacker and the
 * compromised-host loggers read it: an event's type, the tool it used,
 * its text part, and what each kind of event adds to the run's metrics.
 */
module Opencode {
  import opened Wrappers
  import opened Text
  import opened Json

  /** The longest `final_output` the loggers report. */
  const OUTPUT_LIMIT: nat := 500
  /** The number of execution-id characters stamped on each timeline entry. */
  const EXEC_PREFIX: nat := 8

  /** The metrics extracted from a stdout: `final_output` is absent when nothing qualified. */
  datatype Metrics = Metrics(finalOutput: Option<string>, llmCalls: nat, toolCalls: seq<string>, errors: seq<Value>)

  /** The `ts`-less part of a timeline line: level, message, execution prefix and data. */
  datatype TimelineEntry = TimelineEntry(level: string, msg: string, exec: string, data: Value)

  /** `event.get("type", "")`. */
  function EventType(e: Value): string {
    StrOr(e, "type", "")
  }

  /** `event.get("part", {}).get("tool", "unknown")`. */
  function ToolName(e: Value): string {
    StrOr(Sub(e, "part"), "tool", "unknown")
  }

  /** `event.get("part", {}).get("text", "")`. */
  function TextPart(e: Value): string {
    StrOr(Sub(e, "part"), "text", "")
  }

  /** What one decoded event contributes to the metrics. */
  datatype Effect = LlmCall | ToolCall(tool: string) | TextOutput(text: string) | ErrorEvent | NoEffect

  /** The `if`/`elif` chain on the event type: text parts count only when non-empty. */
  function EffectOf(e: Value): (r: Effect)
    ensures r.ToolCall? ==> EventType(e) == "tool_use"
    ensures r.TextOutput? ==> EventType(e) == "text" && r.text != []
  {
    var t := EventType(e);
    if t == "step_start" then LlmCall
    else if t == "tool_use" then ToolCall(ToolName(e))
    else if t == "text" then (if TextPart(e) != [] then TextOutput(TextPart(e)) else NoEffect)
    else if Lower(t) == "error" then ErrorEvent
    else NoEffect
  }

  /** The error branch comes last, yet it catches exactly the events whose lower-cased type is "error". */
  lemma ErrorExactly(e: Value)
    ensures EffectOf(e) == ErrorEvent <==> Lower(EventType(e)) == "error"
  {
    var t := EventType(e);
    if Lower(t) == "error" {
      assert |t| == 5;
    }
  }

  /** The timeline entry logged for a decoded event. */
  function EventEntry(e: Value, executionId: string): TimelineEntry {
    TimelineEntry("OPENCODE", EventType(e), Take(executionId, EXEC_PREFIX), e)
  }
}
