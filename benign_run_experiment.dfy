/**
 * The benign-agent experiment runner's timeline fold: the events the
 * database-administrator agent logged become one row of metrics. Every
 * field is either set by the last event that sets it or counts the events
 * of one kind; the subprocess and the CSV writing are not modelled.
 */
module BenignRunExperiment {
  import opened Wrappers
  import opened Text
  import opened Json
  import opened Jsonl

  // ----- Reading an event -----

  /** `event.get(key, "") == text`: false for an absent key or a value that is not that string. */
  predicate Is(e: Value, key: string, text: string) {
    Get(e, key) == Some(Str(text))
  }

  /** `event.get(key)`, with Python `None` as `Null`. */
  function Field(e: Value, key: string): Value {
    GetOr(e, key, Null)
  }

  /** `event.get("data", {})`; a value that is not an object reads as empty. */
  function Data(e: Value): Value {
    Sub(e, "data")
  }

  /** `event.get("ts", "")`. */
  function Ts(e: Value): Value {
    GetOr(e, "ts", Str(""))
  }

  const STARTED: string := "db_admin execution started"
  const COMPLETED: string := "db_admin execution completed"
  const TIMED_OUT: string := "db_admin execution timed out"
  const FAILED: string := "db_admin execution failed"
  const EXCEPTION: string := "db_admin execution exception"

  /** The branch of the source's if/elif chain an event takes. */
  datatype Kind = Start | Completion | TimedOut | Failed | Exception | OtherError | ToolUse | OpencodeOther | TextLine | Other

  function KindOf(e: Value): Kind {
    if Is(e, "level", "INIT") && Is(e, "msg", STARTED) then Start
    else if Is(e, "level", "EXEC") && Is(e, "msg", COMPLETED) then Completion
    else if Is(e, "level", "ERROR") then
      (if Is(e, "msg", TIMED_OUT) then TimedOut
       else if Is(e, "msg", FAILED) then Failed
       else if Is(e, "msg", EXCEPTION) then Exception
       else OtherError)
    else if Is(e, "level", "OPENCODE") then
      (if Is(Data(e), "type", "tool_use") then ToolUse else OpencodeOther)
    else if Is(e, "level", "OUTPUT") && Is(e, "msg", "text_line") then TextLine
    else Other
  }

  predicate IsErrorKind(k: Kind) {
    k == TimedOut || k == Failed || k == Exception || k == OtherError
  }

  /** The error branch is taken exactly by the events whose level is ERROR. */
  lemma ErrorKindIsErrorLevel(e: Value)
    ensures IsErrorKind(KindOf(e)) <==> Is(e, "level", "ERROR")
  {
    assert Str("INIT") != Str("ERROR") && Str("EXEC") != Str("ERROR");
  }

  /** What the loop reads from an event: the branch it takes, its `data` and its `ts`. */
  datatype Event = Event(kind: Kind, data: Value, ts: Value)

  function Classify(e: Value): Event {
    Event(KindOf(e), Data(e), Ts(e))
  }

  /** The events of a timeline, classified. */
  function Classified(es: seq<Value>): (cs: seq<Event>)
    ensures |cs| == |es| && forall i | 0 <= i < |es| :: cs[i] == Classify(es[i])
  {
    seq(|es|, i requires 0 <= i < |es| => Classify(es[i]))
  }

  /** The `tool` of a tool_use event's `part`. */
  function Tool(ev: Event): Value {
    GetOr(Sub(ev.data, "part"), "tool", Str(""))
  }

  // ----- Last writer wins, and counts -----

  /** The value the last event that sets a field gave it, or `initial` when none did. */
  function LastSet<T>(es: seq<Event>, sets: Event -> Option<T>, initial: T): T
    decreases |es|
  {
    if es == [] then initial
    else
      match sets(es[|es| - 1])
      case Some(v) => v
      case None => LastSet(es[..|es| - 1], sets, initial)
  }

  /** The contributions of the events, added up. */
  function Total(es: seq<Event>, count: Event -> nat): nat
    decreases |es|
  {
    if es == [] then 0 else Total(es[..|es| - 1], count) + count(es[|es| - 1])
  }

  /** The items the events contribute to a list, in order. */
  function Collected(es: seq<Event>, items: Event -> seq<Value>): seq<Value>
    decreases |es|
  {
    if es == [] then [] else Collected(es[..|es| - 1], items) + items(es[|es| - 1])
  }

  /** An event that sets the field decides it, whatever came before. */
  lemma LastSetLast<T>(es: seq<Event>, e: Event, sets: Event -> Option<T>, initial: T)
    requires sets(e).Some?
    ensures LastSet(es + [e], sets, initial) == sets(e).value
  {
    assert (es + [e])[|es + [e]| - 1] == e;
  }

  /** An event that does not set the field leaves it as it was. */
  lemma LastSetSkip<T>(es: seq<Event>, e: Event, sets: Event -> Option<T>, initial: T)
    requires sets(e).None?
    ensures LastSet(es + [e], sets, initial) == LastSet(es, sets, initial)
  {
    assert (es + [e])[..|es + [e]| - 1] == es;
  }

  /** The value a field takes when an event that may set it is read. */
  function Upd<T>(current: T, update: Option<T>): T {
    match update
    case Some(v) => v
    case None => current
  }

  lemma LastSetStep<T>(es: seq<Event>, e: Event, sets: Event -> Option<T>, initial: T)
    ensures LastSet(es + [e], sets, initial) == Upd(LastSet(es, sets, initial), sets(e))
  {
    assert (es + [e])[..|es + [e]| - 1] == es;
    assert (es + [e])[|es + [e]| - 1] == e;
  }

  lemma TotalStep(es: seq<Event>, e: Event, count: Event -> nat)
    ensures Total(es + [e], count) == Total(es, count) + count(e)
  {
    assert (es + [e])[..|es + [e]| - 1] == es;
    assert (es + [e])[|es + [e]| - 1] == e;
  }

  lemma CollectedStep(es: seq<Event>, e: Event, items: Event -> seq<Value>)
    ensures Collected(es + [e], items) == Collected(es, items) + items(e)
  {
    assert (es + [e])[..|es + [e]| - 1] == es;
    assert (es + [e])[|es + [e]| - 1] == e;
  }

  /** Without an event that sets the field, it keeps its initial value; otherwise the last one that does decides it. */
  lemma {:induction false} LastSetFrom<T>(es: seq<Event>, sets: Event -> Option<T>, initial: T)
    ensures (forall i | 0 <= i < |es| :: sets(es[i]).None?) ==> LastSet(es, sets, initial) == initial
    ensures (exists i | 0 <= i < |es| :: sets(es[i]).Some?) ==>
      exists i | 0 <= i < |es| :: (sets(es[i]).Some? && LastSet(es, sets, initial) == sets(es[i]).value
        && forall j | i < j < |es| :: sets(es[j]).None?)
    decreases |es|
  {
    if es != [] {
      var init := es[..|es| - 1];
      assert forall i | 0 <= i < |init| :: init[i] == es[i];
      LastSetFrom(init, sets, initial);
    }
  }

  /** The length of what the events contribute to a list is the sum of their contributions' lengths. */
  lemma {:induction false} CollectedLength(es: seq<Event>, items: Event -> seq<Value>)
    ensures |Collected(es, items)| == Total(es, e => |items(e)|)
    decreases |es|
  {
    if es != [] {
      CollectedLength(es[..|es| - 1], items);
    }
  }

  /** Counting one kind of event: at most one per event, and zero exactly when no event is of that kind. */
  lemma {:induction false} TotalOfKind(es: seq<Event>, count: Event -> nat)
    requires forall e :: count(e) <= 1
    ensures Total(es, count) <= |es|
    ensures Total(es, count) == 0 <==> forall i | 0 <= i < |es| :: count(es[i]) == 0
    decreases |es|
  {
    if es != [] {
      var init := es[..|es| - 1];
      assert forall i | 0 <= i < |init| :: init[i] == es[i];
      TotalOfKind(init, count);
    }
  }

  // ----- What each event sets and counts -----

  /** The status each event kind sets: INIT, EXEC-completed and the three known ERROR messages. */
  function StatusSetBy(ev: Event): Option<string> {
    match ev.kind
    case Start => Some("running")
    case Completion => Some("completed")
    case TimedOut => Some("timeout")
    case Failed => Some("failed")
    case Exception => Some("exception")
    case _ => None
  }

  function StartSets(key: string): Event -> Option<Value> {
    (ev: Event) => if ev.kind == Start then Some(Field(ev.data, key)) else None
  }

  function StartTimeSetBy(ev: Event): Option<Value> {
    if ev.kind == Start then Some(ev.ts) else None
  }

  /** The end time: the completion event's, or a timeout error's. */
  function EndTimeSetBy(ev: Event): Option<Value> {
    if ev.kind == Completion || ev.kind == TimedOut then Some(ev.ts) else None
  }

  /** The exit code: the completion event's, or a failure error's. */
  function ExitCodeSetBy(ev: Event): Option<Value> {
    if ev.kind == Completion || ev.kind == Failed then Some(Field(ev.data, "exit_code")) else None
  }

  function CompletionSets(key: string, default: Value): Event -> Option<Value> {
    (ev: Event) => if ev.kind == Completion then Some(GetOr(ev.data, key, default)) else None
  }

  function Output(ev: Event): Value {
    GetOr(ev.data, "output", Str(""))
  }

  /** The final output length: set by a completion event with a truthy output. */
  function OutputLengthSetBy(ev: Event): Option<nat> {
    if ev.kind == Completion && Truthy(Output(ev)) then Some(|Render(Output(ev))|) else None
  }

  function TimedOutSetBy(ev: Event): Option<bool> {
    if ev.kind == TimedOut then Some(true) else None
  }

  /** The tools an event adds: a completion event's truthy `tool_calls` list, or a tool_use event's truthy tool. */
  function ToolsAddedBy(ev: Event): seq<Value> {
    match ev.kind
    case Completion =>
      var calls := Field(ev.data, "tool_calls");
      if Truthy(calls) && calls.Arr? then calls.items else []
    case ToolUse => if Truthy(Tool(ev)) then [Tool(ev)] else []
    case _ => []
  }

  function ErrorCount(ev: Event): nat {
    if IsErrorKind(ev.kind) then 1 else 0
  }

  /** A tool_use event whose tool is bash or run_in_terminal. */
  function BashCount(ev: Event): nat {
    if ev.kind == ToolUse && (Tool(ev) == Str("bash") || Tool(ev) == Str("run_in_terminal")) then 1 else 0
  }

  function TextCount(ev: Event): nat {
    if ev.kind == TextLine then 1 else 0
  }

  // ----- The metrics -----

  datatype Metrics = Metrics(
    executionId: Value, goal: Value, container: Value, startTime: Value, endTime: Value,
    durationSeconds: Value, exitCode: Value, status: string, llmCalls: Value,
    totalToolCalls: nat, uniqueTools: Value, bashCommands: nat, textOutputs: nat,
    errorsCount: nat, timedOut: bool, finalOutputLength: nat)

  /** The duration from the timestamps, used only when no completion event supplied one. */
  function DerivedDuration(duration: Value, start: Value, end: Value, iso: string -> Option<int>): Value {
    if duration == Null && Truthy(start) && Truthy(end) && start.Str? && end.Str?
       && iso(start.s).Some? && iso(end.s).Some?
    then Num(iso(end.s).value - iso(start.s).value)
    else duration
  }

  /**
   * The duration a completion event supplied is kept; one is derived from
   * the start and end times only when none was supplied.
   */
  lemma DurationSupplied(duration: Value, start: Value, end: Value, iso: string -> Option<int>)
    ensures duration != Null ==> DerivedDuration(duration, start, end, iso) == duration
    ensures DerivedDuration(duration, start, end, iso) != duration ==>
      duration == Null && start.Str? && end.Str? && iso(start.s).Some? && iso(end.s).Some?
  {
  }

  /** A run that completed and then reported "execution failed" ends "failed". */
  lemma CompletedThenFailed(es: seq<Event>, done: Event, failure: Event)
    requires done.kind == Completion && failure.kind == Failed
    ensures LastSet(es + [done, failure], StatusSetBy, "unknown") == "failed"
  {
    assert es + [done, failure] == (es + [done]) + [failure];
    LastSetLast(es + [done], failure, StatusSetBy, "unknown");
  }

  /** The status is one the known events set, and it stays "unknown" when no event sets it. */
  lemma StatusOnlyFromKnownEvents(es: seq<Event>)
    ensures (forall i | 0 <= i < |es| :: StatusSetBy(es[i]).None?) ==> LastSet(es, StatusSetBy, "unknown") == "unknown"
    ensures (exists i | 0 <= i < |es| :: StatusSetBy(es[i]).Some?) ==>
      exists i | 0 <= i < |es| :: (es[i].kind in {Start, Completion, TimedOut, Failed, Exception}
        && LastSet(es, StatusSetBy, "unknown") == StatusSetBy(es[i]).value
        && forall j | i < j < |es| :: es[j].kind !in {Start, Completion, TimedOut, Failed, Exception})
  {
    LastSetFrom(es, StatusSetBy, "unknown");
  }

  /** Every ERROR event counts once, whatever its message. */
  lemma ErrorsCounted(es: seq<Value>)
    ensures Total(Classified(es), ErrorCount) <= |es|
    ensures Total(Classified(es), ErrorCount) == 0 <==> forall i | 0 <= i < |es| :: !Is(es[i], "level", "ERROR")
  {
    var cs := Classified(es);
    TotalOfKind(cs, ErrorCount);
    forall i | 0 <= i < |es| ensures ErrorCount(cs[i]) == 0 <==> !Is(es[i], "level", "ERROR") {
      ErrorKindIsErrorLevel(es[i]);
    }
  }

  /** The metrics and the tool list after reading `es`. */
  predicate Tracks(m: Metrics, toolCalls: seq<Value>, es: seq<Event>) {
    && m.status == LastSet(es, StatusSetBy, "unknown")
    && m.executionId == LastSet(es, StartSets("exec"), Null)
    && m.goal == LastSet(es, StartSets("goal"), Null)
    && m.container == LastSet(es, StartSets("container"), Null)
    && m.startTime == LastSet(es, StartTimeSetBy, Null)
    && m.endTime == LastSet(es, EndTimeSetBy, Null)
    && m.exitCode == LastSet(es, ExitCodeSetBy, Null)
    && m.llmCalls == LastSet(es, CompletionSets("llm_calls", Num(0)), Num(0))
    && m.uniqueTools == LastSet(es, CompletionSets("unique_tools", Num(0)), Num(0))
    && m.durationSeconds == LastSet(es, CompletionSets("duration_seconds", Null), Null)
    && m.finalOutputLength == LastSet(es, OutputLengthSetBy, 0)
    && m.timedOut == LastSet(es, TimedOutSetBy, false)
    && toolCalls == Collected(es, ToolsAddedBy)
    && m.errorsCount == Total(es, ErrorCount)
    && m.bashCommands == Total(es, BashCount)
    && m.textOutputs == Total(es, TextCount)
  }

  /** What reading one event does to each field: set it, count it, or leave it. */
  predicate Stepped(m: Metrics, toolCalls: seq<Value>, ev: Event, m': Metrics, toolCalls': seq<Value>) {
    && m'.status == Upd(m.status, StatusSetBy(ev))
    && m'.executionId == Upd(m.executionId, StartSets("exec")(ev))
    && m'.goal == Upd(m.goal, StartSets("goal")(ev))
    && m'.container == Upd(m.container, StartSets("container")(ev))
    && m'.startTime == Upd(m.startTime, StartTimeSetBy(ev))
    && m'.endTime == Upd(m.endTime, EndTimeSetBy(ev))
    && m'.exitCode == Upd(m.exitCode, ExitCodeSetBy(ev))
    && m'.llmCalls == Upd(m.llmCalls, CompletionSets("llm_calls", Num(0))(ev))
    && m'.uniqueTools == Upd(m.uniqueTools, CompletionSets("unique_tools", Num(0))(ev))
    && m'.durationSeconds == Upd(m.durationSeconds, CompletionSets("duration_seconds", Null)(ev))
    && m'.finalOutputLength == Upd(m.finalOutputLength, OutputLengthSetBy(ev))
    && m'.timedOut == Upd(m.timedOut, TimedOutSetBy(ev))
    && toolCalls' == toolCalls + ToolsAddedBy(ev)
    && m'.errorsCount == m.errorsCount + ErrorCount(ev)
    && m'.bashCommands == m.bashCommands + BashCount(ev)
    && m'.textOutputs == m.textOutputs + TextCount(ev)
  }

  /** Reading one more event keeps the metrics in step with the events read. */
  lemma TracksStep(m: Metrics, toolCalls: seq<Value>, done: seq<Event>, ev: Event, m': Metrics, toolCalls': seq<Value>)
    requires Tracks(m, toolCalls, done) && Stepped(m, toolCalls, ev, m', toolCalls')
    ensures Tracks(m', toolCalls', done + [ev])
  {
    LastSetStep(done, ev, StatusSetBy, "unknown");
    LastSetStep(done, ev, StartSets("exec"), Null);
    LastSetStep(done, ev, StartSets("goal"), Null);
    LastSetStep(done, ev, StartSets("container"), Null);
    LastSetStep(done, ev, StartTimeSetBy, Null);
    LastSetStep(done, ev, EndTimeSetBy, Null);
    LastSetStep(done, ev, ExitCodeSetBy, Null);
    LastSetStep(done, ev, CompletionSets("llm_calls", Num(0)), Num(0));
    LastSetStep(done, ev, CompletionSets("unique_tools", Num(0)), Num(0));
    LastSetStep(done, ev, CompletionSets("duration_seconds", Null), Null);
    LastSetStep(done, ev, OutputLengthSetBy, 0);
    LastSetStep(done, ev, TimedOutSetBy, false);
    CollectedStep(done, ev, ToolsAddedBy);
    TotalStep(done, ev, ErrorCount);
    TotalStep(done, ev, BashCount);
    TotalStep(done, ev, TextCount);
  }

  /**
   * `extract_metrics_from_timeline`: each field is set by the last event
   * that sets it or counts events of its kind; the tool total is the number
   * of tools collected from completion and tool_use events, and the
   * duration is derived from the timestamps only when none was supplied.
   */
  method ExtractMetricsFromTimeline(events: seq<Value>, iso: string -> Option<int>) returns (m: Metrics)
    ensures var cs := Classified(events);
      && m.status == LastSet(cs, StatusSetBy, "unknown")
      && m.executionId == LastSet(cs, StartSets("exec"), Null)
      && m.goal == LastSet(cs, StartSets("goal"), Null)
      && m.container == LastSet(cs, StartSets("container"), Null)
      && m.startTime == LastSet(cs, StartTimeSetBy, Null)
      && m.endTime == LastSet(cs, EndTimeSetBy, Null)
      && m.exitCode == LastSet(cs, ExitCodeSetBy, Null)
      && m.llmCalls == LastSet(cs, CompletionSets("llm_calls", Num(0)), Num(0))
      && m.uniqueTools == LastSet(cs, CompletionSets("unique_tools", Num(0)), Num(0))
      && m.durationSeconds == DerivedDuration(LastSet(cs, CompletionSets("duration_seconds", Null), Null),
           m.startTime, m.endTime, iso)
      && m.finalOutputLength == LastSet(cs, OutputLengthSetBy, 0)
      && m.timedOut == LastSet(cs, TimedOutSetBy, false)
      && m.totalToolCalls == |Collected(cs, ToolsAddedBy)|
      && m.errorsCount == Total(cs, ErrorCount)
      && m.bashCommands == Total(cs, BashCount)
      && m.textOutputs == Total(cs, TextCount)
  {
    var toolCalls;
    m, toolCalls := ReadEvents(events);
    m := m.(totalToolCalls := |toolCalls|);
    if m.durationSeconds == Null && Truthy(m.startTime) && Truthy(m.endTime) {
      if m.startTime.Str? && m.endTime.Str? {
        var startDt := iso(m.startTime.s);
        var endDt := iso(m.endTime.s);
        if startDt.Some? && endDt.Some? {
          m := m.(durationSeconds := Num(endDt.value - startDt.value));
        }
      }
    }
  }

  /** The loop over the events, which keeps `Tracks` of the prefix read so far. */
  method ReadEvents(events: seq<Value>) returns (m: Metrics, toolCalls: seq<Value>)
    ensures Tracks(m, toolCalls, Classified(events))
  {
    ghost var cs := Classified(events);
    m := Metrics(Null, Null, Null, Null, Null, Null, Null, "unknown", Num(0), 0, Num(0), 0, 0, 0, false, 0);
    toolCalls := [];
    var i := 0;
    while i < |events|
      invariant 0 <= i <= |events|
      invariant Tracks(m, toolCalls, cs[..i])
    {
      var m', toolCalls' := ReadEvent(m, toolCalls, Classify(events[i]));
      TracksStep(m, toolCalls, cs[..i], cs[i], m', toolCalls');
      m, toolCalls := m', toolCalls';
      assert cs[..i] + [cs[i]] == cs[..i + 1];
      i := i + 1;
    }
    assert cs[..i] == cs;
  }

  /** One event of the loop, by the branch of the if/elif chain it takes. */
  method ReadEvent(m: Metrics, toolCalls: seq<Value>, ev: Event) returns (m': Metrics, toolCalls': seq<Value>)
    ensures Stepped(m, toolCalls, ev, m', toolCalls')
  {
    match ev.kind
    case Start => m' := ReadStart(m, ev); toolCalls' := toolCalls;
    case Completion => m', toolCalls' := ReadCompletion(m, toolCalls, ev);
    case TimedOut => m' := ReadError(m, ev); toolCalls' := toolCalls;
    case Failed => m' := ReadError(m, ev); toolCalls' := toolCalls;
    case Exception => m' := ReadError(m, ev); toolCalls' := toolCalls;
    case OtherError => m' := ReadError(m, ev); toolCalls' := toolCalls;
    case ToolUse => m', toolCalls' := ReadToolUse(m, toolCalls, ev);
    case TextLine => m' := m.(textOutputs := m.textOutputs + 1); toolCalls' := toolCalls;
    case OpencodeOther => m', toolCalls' := m, toolCalls;
    case Other => m', toolCalls' := m, toolCalls;
  }

  /** The INIT branch: the execution's identity and start time, and status "running". */
  method ReadStart(m: Metrics, ev: Event) returns (m': Metrics)
    requires ev.kind == Start
    ensures Stepped(m, [], ev, m', [])
  {
    var data := ev.data;
    m' := m.(executionId := Field(data, "exec"), goal := Field(data, "goal"), container := Field(data, "container"),
             startTime := ev.ts, status := "running");
  }

  /** The EXEC-completed branch: the end time, the reported figures and tools, and status "completed". */
  method ReadCompletion(m: Metrics, toolCalls: seq<Value>, ev: Event) returns (m': Metrics, toolCalls': seq<Value>)
    requires ev.kind == Completion
    ensures Stepped(m, toolCalls, ev, m', toolCalls')
  {
    var data := ev.data;
    m' := m.(endTime := ev.ts, durationSeconds := Field(data, "duration_seconds"), exitCode := Field(data, "exit_code"),
             llmCalls := GetOr(data, "llm_calls", Num(0)), uniqueTools := GetOr(data, "unique_tools", Num(0)),
             status := "completed");
    toolCalls' := toolCalls;
    var calls := Field(data, "tool_calls");
    if Truthy(calls) && calls.Arr? {
      toolCalls' := toolCalls' + calls.items;
    }
    var output := GetOr(data, "output", Str(""));
    if Truthy(output) {
      m' := m'.(finalOutputLength := |Render(output)|);
    }
  }

  /** The ERROR branch: one more error, and the three known messages set the status. */
  method ReadError(m: Metrics, ev: Event) returns (m': Metrics)
    requires IsErrorKind(ev.kind)
    ensures Stepped(m, [], ev, m', [])
  {
    m' := m.(errorsCount := m.errorsCount + 1);
    if ev.kind == TimedOut {
      m' := m'.(timedOut := true, status := "timeout", endTime := ev.ts);
    } else if ev.kind == Failed {
      m' := m'.(status := "failed", exitCode := Field(ev.data, "exit_code"));
    } else if ev.kind == Exception {
      m' := m'.(status := "exception");
    }
  }

  /** The OPENCODE tool_use branch: a truthy tool is collected, and bash tools are counted. */
  method ReadToolUse(m: Metrics, toolCalls: seq<Value>, ev: Event) returns (m': Metrics, toolCalls': seq<Value>)
    requires ev.kind == ToolUse
    ensures Stepped(m, toolCalls, ev, m', toolCalls')
  {
    m', toolCalls' := m, toolCalls;
    var tool := GetOr(Sub(ev.data, "part"), "tool", Str(""));
    if Truthy(tool) {
      toolCalls' := toolCalls' + [tool];
    }
    if tool == Str("bash") || tool == Str("run_in_terminal") {
      m' := m'.(bashCommands := m'.bashCommands + 1);
    }
  }

  // ----- The timeouts of one run -----

  /**
   * `run_single_experiment`'s timeouts: the one handed to the logger (24
   * hours when none is given) and the subprocess's (none when none is
   * given, otherwise a minute more than the logger's).
   */
  function Timeouts(timeout: Option<int>): (r: (int, Option<int>))
    ensures timeout.None? ==> r.0 == 86400 && r.1.None?
    ensures timeout.Some? ==> r.0 == timeout.value && r.1 == Some(r.0 + 60)
  {
    match timeout
    case None => (86400, None)
    case Some(t) => (t, Some(t + 60))
  }
}
