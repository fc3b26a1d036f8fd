/**
 * The attacker's OpenCode wrapper: it folds the stdout of an OpenCode run
 * into metrics and logs one timeline entry per JSON event. Unlike the
 * compromised host's logger it knows no Bash marker, estimates no LLM
 * calls and has no whole-stdout fallback for the final output.
 */
module AttackerOpencodeInteractive {
  import opened Wrappers
  import opened Text
  import opened Json
  import opened Opencode
  import opened DbAdminLogger

  /** The class of a line here: stripped first, and every non-JSON line is plain. */
  function AttackerKindOf(line: string, parse: Parser): (k: Line)
    ensures !k.BashLine?
    ensures k.Blank? <==> Strip(line) == []
    ensures k.Event? ==> parse(Strip(line)) == Some(k.e)
    ensures k.Plain? ==> k.t == Strip(line) && parse(k.t).None?
  {
    var t := Strip(line);
    if t == [] then Blank
    else match parse(t)
      case Some(e) => Event(e)
      case None => Plain(t)
  }

  function AttackerKinds(lines: seq<string>, parse: Parser): (ks: seq<Line>)
    ensures |ks| == |lines| && forall i :: 0 <= i < |lines| ==> ks[i] == AttackerKindOf(lines[i], parse)
  {
    seq(|lines|, i requires 0 <= i < |lines| => AttackerKindOf(lines[i], parse))
  }

  /** The metrics of the classified lines: the text-part fallback applies only without a plain line. */
  function AttackerFinish(ks: seq<Line>): Metrics {
    var first := FirstPlain(ks);
    var texts := Texts(ks);
    Metrics(
      if first.Some? then first
      else if texts != [] then Some(TakeLast(Join(" ", texts), OUTPUT_LIMIT))
      else None,
      LlmCalls(ks), Tools(ks), Errors(ks))
  }

  /** `append_opencode_events`' metrics as a function of the text. */
  function AttackerMetricsOf(stdout: string, parse: Parser): Metrics {
    AttackerFinish(AttackerKinds(LinesOf(stdout), parse))
  }

  /** The timeline entries: one OPENCODE entry per decoded event, in order; other lines log nothing. */
  function EventEntries(ks: seq<Line>, executionId: string): (r: seq<TimelineEntry>)
    ensures |r| <= |ks|
    ensures forall j :: 0 <= j < |r| ==>
      r[j].level == "OPENCODE" && r[j].msg == EventType(r[j].data) && r[j].exec == Take(executionId, EXEC_PREFIX)
    decreases |ks|
  {
    if ks == [] then []
    else
      var k := ks[|ks| - 1];
      EventEntries(ks[..|ks| - 1], executionId) + if k.Event? then [EventEntry(k.e, executionId)] else []
  }

  /** Logging a concatenation logs each part in turn. */
  lemma {:induction false} EventEntriesAppend(a: seq<Line>, b: seq<Line>, executionId: string)
    ensures EventEntries(a + b, executionId) == EventEntries(a, executionId) + EventEntries(b, executionId)
    decreases |b|
  {
    if b == [] {
      assert a + b == a;
    } else {
      var init := b[..|b| - 1];
      EventEntriesAppend(a, init, executionId);
      assert (a + b)[..|a + b| - 1] == a + init;
      assert (a + b)[|a + b| - 1] == b[|b| - 1];
    }
  }

  /** Nothing is logged exactly when no line decodes. */
  lemma {:induction false} EventEntriesNone(ks: seq<Line>, executionId: string)
    ensures EventEntries(ks, executionId) == [] <==> forall i :: 0 <= i < |ks| ==> !ks[i].Event?
    decreases |ks|
  {
    if ks != [] {
      var init := ks[..|ks| - 1];
      EventEntriesNone(init, executionId);
      assert forall i :: 0 <= i < |init| ==> init[i] == ks[i];
    }
  }

  /**
   * Without a line carrying the Bash marker both loggers agree on LLM
   * calls, tools and errors; their final outputs differ only when neither
   * a plain line nor a text part gave one, where this one reports none.
   */
  lemma SameWithoutBashLines(stdout: string, parse: Parser)
    requires forall i :: 0 <= i < |LinesOf(stdout)| ==> !KindOf(LinesOf(stdout)[i], parse).BashLine?
    ensures var a := AttackerMetricsOf(stdout, parse);
      var d := MetricsOf(stdout, parse);
      && a.llmCalls == d.llmCalls && a.toolCalls == d.toolCalls && a.errors == d.errors
      && (a.finalOutput.Some? ==> a.finalOutput == d.finalOutput)
      && (a.finalOutput.None? ==> d.finalOutput == if stdout == [] then None else Some(Take(stdout, OUTPUT_LIMIT)))
  {
    var lines := LinesOf(stdout);
    var ks := Kinds(lines, parse);
    assert AttackerKinds(lines, parse) == ks;
    NoBashLines(ks);
  }

  /** Classified lines with no Bash line have no Bash command. */
  lemma {:induction false} NoBashLines(ks: seq<Line>)
    requires forall i :: 0 <= i < |ks| ==> !ks[i].BashLine?
    ensures BashCommands(ks) == []
    decreases |ks|
  {
    if ks != [] {
      NoBashLines(ks[..|ks| - 1]);
    }
  }

  /** `len(set(tool_calls))`: the number of distinct tools. */
  function UniqueTools(tools: seq<string>): nat {
    |set t | t in tools|
  }

  /** Some tool was used exactly when there is at least one distinct tool, and never more distinct tools than calls. */
  lemma {:induction false} UniqueToolsBounds(tools: seq<string>)
    ensures UniqueTools(tools) <= |tools|
    ensures tools != [] <==> UniqueTools(tools) >= 1
    decreases |tools|
  {
    if tools != [] {
      UniqueToolsBounds(tools[1..]);
      assert (set t | t in tools) == {tools[0]} + (set t | t in tools[1..]);
      assert tools[0] in (set t | t in tools);
    } else {
      assert (set t | t in tools) == {};
    }
  }

  /**
   * `append_opencode_events`: the loop over the stripped lines and the
   * fallback after it compute `AttackerMetricsOf`, and the entries appended
   * to the timeline are `EventEntries` of the lines.
   */
  method AppendOpencodeEvents(executionId: string, stdout: string, parse: Parser)
    returns (m: Metrics, written: seq<TimelineEntry>)
    ensures m == AttackerMetricsOf(stdout, parse)
    ensures written == EventEntries(AttackerKinds(LinesOf(stdout), parse), executionId)
  {
    var lines := LinesOf(stdout);
    ghost var ks := AttackerKinds(lines, parse);
    var toolCalls: seq<string> := [];
    var llmCalls: nat := 0;
    var finalOutput: Option<string> := None;
    var errors: seq<Value> := [];
    var textOutputs: seq<string> := [];
    written := [];
    var i := 0;
    while i < |lines|
      invariant 0 <= i <= |lines|
      invariant llmCalls == LlmCalls(ks[..i]) && toolCalls == Tools(ks[..i])
      invariant textOutputs == Texts(ks[..i]) && errors == Errors(ks[..i])
      invariant finalOutput == FirstPlain(ks[..i]) && written == EventEntries(ks[..i], executionId)
    {
      PrefixSnoc(ks, i);
      llmCalls, toolCalls, textOutputs, errors, finalOutput, written :=
        ReadEvent(lines[i], parse, executionId, ks[..i], llmCalls, toolCalls, textOutputs, errors, finalOutput, written);
      i := i + 1;
    }
    assert ks[..i] == ks;
    if finalOutput.None? && textOutputs != [] {
      finalOutput := Some(TakeLast(Join(" ", textOutputs), OUTPUT_LIMIT));
    }
    m := Metrics(finalOutput, llmCalls, toolCalls, errors);
  }

  /** One pass of the loop: the accumulators and the timeline after one more line. */
  method ReadEvent(line: string, parse: Parser, executionId: string, ghost ks: seq<Line>,
                   llm: nat, tools: seq<string>, texts: seq<string>, errs: seq<Value>,
                   first: Option<string>, written: seq<TimelineEntry>)
    returns (llm': nat, tools': seq<string>, texts': seq<string>, errs': seq<Value>,
             first': Option<string>, written': seq<TimelineEntry>)
    requires llm == LlmCalls(ks) && tools == Tools(ks) && texts == Texts(ks) && errs == Errors(ks)
    requires first == FirstPlain(ks) && written == EventEntries(ks, executionId)
    ensures var ks' := ks + [AttackerKindOf(line, parse)];
      && llm' == LlmCalls(ks') && tools' == Tools(ks') && texts' == Texts(ks')
      && errs' == Errors(ks') && first' == FirstPlain(ks') && written' == EventEntries(ks', executionId)
  {
    llm', tools', texts', errs', first', written' := llm, tools, texts, errs, first, written;
    assert (ks + [AttackerKindOf(line, parse)])[..|ks|] == ks;
    var stripped := Strip(line);
    if stripped == [] {
      return;
    }
    var decoded := parse(stripped);
    if decoded.None? {
      if first.None? {
        first' := Some(Take(stripped, OUTPUT_LIMIT));
      }
      return;
    }
    var event := decoded.value;
    var eventType := EventType(event);
    if eventType == "step_start" {
      llm' := llm + 1;
    } else if eventType == "tool_use" {
      tools' := tools + [ToolName(event)];
    } else if eventType == "text" {
      var textContent := TextPart(event);
      if textContent != [] {
        texts' := texts + [textContent];
      }
    } else if Lower(eventType) == "error" {
      errs' := errs + [event];
    }
    written' := written + [EventEntry(event, executionId)];
  }
}
