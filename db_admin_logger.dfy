/**
 * The compromised host's benign-agent logger: it folds the stdout of an
 * OpenCode run into metrics (LLM calls, tools used, errors and a final
 * output) and, in `append_opencode_events`, also logs one timeline entry
 * per non-blank line. Both folds compute the same metrics.
 */
module DbAdminLogger {
  import opened Wrappers
  import opened Text
  import opened Json
  import opened Opencode

  /** The marker of a Bash tool call in OpenCode's formatted (non-JSON) output. */
  const BASH_MARK: string := "|  Bash "
  /** The longest text a `text_line` timeline entry keeps. */
  const TEXT_LINE_LIMIT: nat := 200

  /** How the loop treats one line of stdout; `t` is the stripped line. */
  datatype Line = Blank | Event(e: Value) | BashLine(t: string) | Plain(t: string)

  /** The class of a raw line: the Bash marker is looked for in the line before stripping. */
  function KindOf(line: string, parse: Parser): (k: Line)
    ensures k.Blank? <==> Strip(line) == []
    ensures k.Event? ==> parse(Strip(line)) == Some(k.e)
    ensures (k.BashLine? || k.Plain?) ==> k.t == Strip(line) && k.t != [] && parse(k.t).None?
    ensures k.BashLine? <==> Strip(line) != [] && parse(Strip(line)).None? && Contains(line, BASH_MARK)
  {
    var t := Strip(line);
    if t == [] then Blank
    else match parse(t)
      case Some(e) => Event(e)
      case None => if Contains(line, BASH_MARK) then BashLine(t) else Plain(t)
  }

  function Kinds(lines: seq<string>, parse: Parser): (ks: seq<Line>)
    ensures |ks| == |lines| && forall i :: 0 <= i < |lines| ==> ks[i] == KindOf(lines[i], parse)
  {
    seq(|lines|, i requires 0 <= i < |lines| => KindOf(lines[i], parse))
  }

  // The reference folds: each says what one component of the metrics
  // collects from the classified lines, in order.

  function LlmCalls(ks: seq<Line>): (n: nat)
    ensures n <= |ks|
    decreases |ks|
  {
    if ks == [] then 0
    else
      var k := ks[|ks| - 1];
      LlmCalls(ks[..|ks| - 1]) + if k.Event? && EffectOf(k.e) == LlmCall then 1 else 0
  }

  function Tools(ks: seq<Line>): seq<string>
    decreases |ks|
  {
    if ks == [] then []
    else
      var k := ks[|ks| - 1];
      Tools(ks[..|ks| - 1]) +
        if k.Event? && EffectOf(k.e).ToolCall? then [EffectOf(k.e).tool]
        else if k.BashLine? then ["bash"]
        else []
  }

  function Texts(ks: seq<Line>): seq<string>
    decreases |ks|
  {
    if ks == [] then []
    else
      var k := ks[|ks| - 1];
      Texts(ks[..|ks| - 1]) + if k.Event? && EffectOf(k.e).TextOutput? then [EffectOf(k.e).text] else []
  }

  function Errors(ks: seq<Line>): seq<Value>
    decreases |ks|
  {
    if ks == [] then []
    else
      var k := ks[|ks| - 1];
      Errors(ks[..|ks| - 1]) + if k.Event? && EffectOf(k.e) == ErrorEvent then [k.e] else []
  }

  function BashCommands(ks: seq<Line>): seq<string>
    decreases |ks|
  {
    if ks == [] then []
    else
      var k := ks[|ks| - 1];
      BashCommands(ks[..|ks| - 1]) + if k.BashLine? then [k.t] else []
  }

  /** The first plain line, cut to 500 characters. */
  function FirstPlain(ks: seq<Line>): Option<string>
    decreases |ks|
  {
    if ks == [] then None
    else
      var f := FirstPlain(ks[..|ks| - 1]);
      var k := ks[|ks| - 1];
      if f.Some? then f else if k.Plain? then Some(Take(k.t, OUTPUT_LIMIT)) else None
  }

  /** Without a plain line there is no first one; otherwise it is the first plain line's first 500 characters. */
  lemma {:induction false} FirstPlainIsFirst(ks: seq<Line>)
    ensures FirstPlain(ks).None? <==> forall i :: 0 <= i < |ks| ==> !ks[i].Plain?
    ensures FirstPlain(ks).Some? ==>
      exists i :: 0 <= i < |ks| && ks[i].Plain? && FirstPlain(ks).value == Take(ks[i].t, OUTPUT_LIMIT)
        && forall j :: 0 <= j < i ==> !ks[j].Plain?
    decreases |ks|
  {
    if ks != [] {
      var init := ks[..|ks| - 1];
      FirstPlainIsFirst(init);
      assert forall i :: 0 <= i < |init| ==> init[i] == ks[i];
    }
  }

  /** Every error is a decoded event whose lower-cased type is "error", and every such event is one. */
  lemma {:induction false} ErrorsExact(ks: seq<Line>)
    ensures forall v :: v in Errors(ks) <==>
      exists i :: 0 <= i < |ks| && ks[i].Event? && ks[i].e == v && Lower(EventType(v)) == "error"
    decreases |ks|
  {
    if ks != [] {
      var init := ks[..|ks| - 1];
      ErrorsExact(init);
      assert forall i :: 0 <= i < |init| ==> init[i] == ks[i];
      var k := ks[|ks| - 1];
      if k.Event? {
        ErrorExactly(k.e);
      }
    }
  }

  /**
   * The fix-ups after the loop: LLM calls estimated from Bash lines, and a
   * final output taken from the text parts or else from stdout itself.
   */
  function Finalize(llm: nat, tools: seq<string>, texts: seq<string>, errs: seq<Value>,
                    bash: seq<string>, first: Option<string>, stdout: string): Metrics
  {
    Metrics(
      if first.Some? then first
      else if texts != [] then Some(TakeLast(Join(" ", texts), OUTPUT_LIMIT))
      else if stdout != [] then Some(Take(stdout, OUTPUT_LIMIT))
      else None,
      if llm == 0 && bash != [] then Max(1, |bash| / 2) else llm,
      tools,
      errs)
  }

  /** The metrics of the classified lines of `stdout`. */
  function Finish(ks: seq<Line>, stdout: string): Metrics {
    Finalize(LlmCalls(ks), Tools(ks), Texts(ks), Errors(ks), BashCommands(ks), FirstPlain(ks), stdout)
  }

  /** The lines `splitlines` yields, split at line feeds. */
  function LinesOf(stdout: string): seq<string> {
    Split(stdout, '\n')
  }

  /** `_calculate_metrics` as a function of the text. */
  function MetricsOf(stdout: string, parse: Parser): Metrics {
    Finish(Kinds(LinesOf(stdout), parse), stdout)
  }

  /**
   * LLM calls are zero exactly when there was neither a step_start event
   * nor a Bash line; Bash lines alone estimate half their number, at least one.
   */
  lemma LlmCallsEstimate(stdout: string, parse: Parser)
    ensures var ks := Kinds(LinesOf(stdout), parse);
      var m := MetricsOf(stdout, parse);
      && (m.llmCalls == 0 <==> LlmCalls(ks) == 0 && BashCommands(ks) == [])
      && (LlmCalls(ks) > 0 ==> m.llmCalls == LlmCalls(ks))
      && (LlmCalls(ks) == 0 && BashCommands(ks) != [] ==> m.llmCalls == Max(1, |BashCommands(ks)| / 2))
  {
  }

  /** There is a final output exactly when stdout is non-empty, and it never exceeds 500 characters. */
  lemma {:induction false} FinalOutputPresent(stdout: string, parse: Parser)
    ensures var m := MetricsOf(stdout, parse);
      && (m.finalOutput.None? <==> stdout == [])
      && (m.finalOutput.Some? ==> |m.finalOutput.value| <= OUTPUT_LIMIT)
  {
    var ks := Kinds(LinesOf(stdout), parse);
    if stdout == [] {
      assert LinesOf(stdout) == [""];
      assert KindOf("", parse) == Blank;
      assert ks == [Blank];
      assert ks[..0] == [];
      assert FirstPlain(ks) == None;
      assert Texts(ks) == [];
    }
    FirstPlainIsFirst(ks);
  }

  /**
   * `_calculate_metrics`: the loop over the lines and the fix-ups after it
   * compute `MetricsOf`.
   */
  method CalculateMetrics(stdout: string, parse: Parser) returns (m: Metrics)
    ensures m == MetricsOf(stdout, parse)
  {
    var lines := LinesOf(stdout);
    ghost var ks := Kinds(lines, parse);
    var toolCalls: seq<string> := [];
    var llmCalls: nat := 0;
    var finalOutput: Option<string> := None;
    var errors: seq<Value> := [];
    var textOutputs: seq<string> := [];
    var bashCommands: seq<string> := [];
    var i := 0;
    while i < |lines|
      invariant 0 <= i <= |lines|
      invariant llmCalls == LlmCalls(ks[..i]) && toolCalls == Tools(ks[..i])
      invariant textOutputs == Texts(ks[..i]) && errors == Errors(ks[..i])
      invariant bashCommands == BashCommands(ks[..i]) && finalOutput == FirstPlain(ks[..i])
    {
      PrefixSnoc(ks, i);
      llmCalls, toolCalls, textOutputs, errors, bashCommands, finalOutput :=
        ReadLine(lines[i], parse, ks[..i], llmCalls, toolCalls, textOutputs, errors, bashCommands, finalOutput);
      i := i + 1;
    }
    assert ks[..i] == ks;
    m := Finalize(llmCalls, toolCalls, textOutputs, errors, bashCommands, finalOutput, stdout);
  }

  /**
   * One pass of the loop body shared by both folds: the accumulators of the
   * lines `ks` read so far, after one more line.
   */
  method ReadLine(line: string, parse: Parser, ghost ks: seq<Line>, llm: nat, tools: seq<string>, texts: seq<string>,
                  errs: seq<Value>, bash: seq<string>, first: Option<string>)
    returns (llm': nat, tools': seq<string>, texts': seq<string>, errs': seq<Value>, bash': seq<string>, first': Option<string>)
    requires llm == LlmCalls(ks) && tools == Tools(ks) && texts == Texts(ks) && errs == Errors(ks)
    requires bash == BashCommands(ks) && first == FirstPlain(ks)
    ensures var ks' := ks + [KindOf(line, parse)];
      && llm' == LlmCalls(ks') && tools' == Tools(ks') && texts' == Texts(ks')
      && errs' == Errors(ks') && bash' == BashCommands(ks') && first' == FirstPlain(ks')
  {
    llm', tools', texts', errs', bash', first' := llm, tools, texts, errs, bash, first;
    assert (ks + [KindOf(line, parse)])[..|ks|] == ks;
    var lineStripped := Strip(line);
    if lineStripped == [] {
      return;
    }
    match parse(lineStripped)
    case Some(event) =>
      var eventType := EventType(event);
      if eventType == "step_start" {
        llm' := llm + 1;
      } else if eventType == "tool_use" {
        tools' := tools + [ToolName(event)];
      } else if eventType == "text" {
        var textContent := TextPart(event);
        if textContent != [] {
          texts' := texts + [textContent];
        }
      } else if Lower(eventType) == "error" {
        errs' := errs + [event];
      }
    case None =>
      if Contains(line, BASH_MARK) {
        bash' := bash + [lineStripped];
        tools' := tools + ["bash"];
      } else if first.None? {
        first' := Some(Take(lineStripped, OUTPUT_LIMIT));
      }
  }

  /** The `text_line` entry logged for a line that is not JSON: its first 200 characters. */
  function TextLineEntry(t: string, executionId: string): TimelineEntry {
    TimelineEntry("OUTPUT", "text_line", Take(executionId, EXEC_PREFIX),
      Obj(map["text" := Str(Take(t, TEXT_LINE_LIMIT))]))
  }

  /** The timeline entries of the classified lines: one per non-blank line, in order. */
  function Entries(ks: seq<Line>, executionId: string): (r: seq<TimelineEntry>)
    ensures |r| <= |ks|
    ensures forall j :: 0 <= j < |r| ==>
      && r[j].exec == Take(executionId, EXEC_PREFIX)
      && (r[j].level == "OPENCODE" ==> r[j].msg == EventType(r[j].data))
      && (r[j].level != "OPENCODE" ==> r[j].level == "OUTPUT" && r[j].msg == "text_line")
    decreases |ks|
  {
    if ks == [] then []
    else
      var k := ks[|ks| - 1];
      Entries(ks[..|ks| - 1], executionId) +
        match k
        case Blank => []
        case Event(e) => [EventEntry(e, executionId)]
        case BashLine(t) => [TextLineEntry(t, executionId)]
        case Plain(t) => [TextLineEntry(t, executionId)]
  }

  /** Logging a concatenation logs each part in turn. */
  lemma {:induction false} EntriesAppend(a: seq<Line>, b: seq<Line>, executionId: string)
    ensures Entries(a + b, executionId) == Entries(a, executionId) + Entries(b, executionId)
    decreases |b|
  {
    if b == [] {
      assert a + b == a;
    } else {
      var init := b[..|b| - 1];
      EntriesAppend(a, init, executionId);
      assert (a + b)[..|a + b| - 1] == a + init;
      assert (a + b)[|a + b| - 1] == b[|b| - 1];
    }
  }

  /** Nothing is logged exactly when every line is blank. */
  lemma {:induction false} EntriesAllBlank(ks: seq<Line>, executionId: string)
    ensures Entries(ks, executionId) == [] <==> forall i :: 0 <= i < |ks| ==> ks[i].Blank?
    decreases |ks|
  {
    if ks != [] {
      var init := ks[..|ks| - 1];
      EntriesAllBlank(init, executionId);
      assert forall i :: 0 <= i < |init| ==> init[i] == ks[i];
    }
  }

  /**
   * `append_opencode_events`: the same metrics as `_calculate_metrics`, and
   * the entries appended to the timeline are `Entries` of the lines.
   */
  method AppendOpencodeEvents(executionId: string, stdout: string, parse: Parser)
    returns (m: Metrics, written: seq<TimelineEntry>)
    ensures m == MetricsOf(stdout, parse)
    ensures written == Entries(Kinds(LinesOf(stdout), parse), executionId)
  {
    var lines := LinesOf(stdout);
    ghost var ks := Kinds(lines, parse);
    var toolCalls: seq<string> := [];
    var llmCalls: nat := 0;
    var finalOutput: Option<string> := None;
    var errors: seq<Value> := [];
    var textOutputs: seq<string> := [];
    var bashCommands: seq<string> := [];
    written := [];
    var i := 0;
    while i < |lines|
      invariant 0 <= i <= |lines|
      invariant llmCalls == LlmCalls(ks[..i]) && toolCalls == Tools(ks[..i])
      invariant textOutputs == Texts(ks[..i]) && errors == Errors(ks[..i])
      invariant bashCommands == BashCommands(ks[..i]) && finalOutput == FirstPlain(ks[..i])
      invariant written == Entries(ks[..i], executionId)
    {
      PrefixSnoc(ks, i);
      llmCalls, toolCalls, textOutputs, errors, bashCommands, finalOutput :=
        ReadLine(lines[i], parse, ks[..i], llmCalls, toolCalls, textOutputs, errors, bashCommands, finalOutput);
      written := LogLine(lines[i], parse, executionId, ks[..i], written);
      i := i + 1;
    }
    assert ks[..i] == ks;
    m := Finalize(llmCalls, toolCalls, textOutputs, errors, bashCommands, finalOutput, stdout);
  }

  /** The timeline write of one loop pass: an OPENCODE entry for JSON, a text_line entry otherwise. */
  method LogLine(line: string, parse: Parser, executionId: string, ghost ks: seq<Line>, written: seq<TimelineEntry>)
    returns (written': seq<TimelineEntry>)
    requires written == Entries(ks, executionId)
    ensures written' == Entries(ks + [KindOf(line, parse)], executionId)
  {
    assert (ks + [KindOf(line, parse)])[..|ks|] == ks;
    var lineStripped := Strip(line);
    if lineStripped == [] {
      return written;
    }
    match parse(lineStripped)
    case Some(event) =>
      written' := written + [EventEntry(event, executionId)];
    case None =>
      written' := written + [TextLineEntry(lineStripped, executionId)];
  }
}
