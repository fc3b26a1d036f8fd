/**
 * The expansion of a run's initial observation: the bash commands the
 * responder ran, read from its timeline up to the first DONE entry that
 * reports EXEC, and their rendering as the numbered command list of the
 * prompt.
 */
module ExpandRunAnalysis {
  import opened Wrappers
  import opened Text
  import opened Json

  /** One collected bash command. */
  datatype TimelineCommand = TimelineCommand(command: string, description: string, exitCode: Value, output: string)

  const OUTPUT_LIMIT: nat := 500
  const TRUNCATED := "... [truncated]"
  /** The share of each output that goes into the prompt. */
  const PROMPT_OUTPUT_LIMIT: nat := 800

  // ---- extract_timeline_commands ----

  /** An output longer than 500 characters is cut to 500 and marked. */
  function TruncateOutput(o: string): (r: string)
    ensures |o| <= OUTPUT_LIMIT ==> r == o
    ensures |o| > OUTPUT_LIMIT ==>
      |r| == OUTPUT_LIMIT + |TRUNCATED| && r[..OUTPUT_LIMIT] == o[..OUTPUT_LIMIT] && EndsWith(r, TRUNCATED)
  {
    if |o| > OUTPUT_LIMIT then
      var r := o[..OUTPUT_LIMIT] + TRUNCATED;
      assert r[..OUTPUT_LIMIT] == o[..OUTPUT_LIMIT];
      r
    else o
  }

  /** `'EXEC' in msg`: a substring of a string, an element of a list, a key of an object. */
  predicate MsgHasExec(msg: Value) {
    match msg
    case Str(s) => Contains(s, "EXEC")
    case Arr(items) => Str("EXEC") in items
    case Obj(m) => "EXEC" in m
    case _ => false
  }

  /** The entry that ends the scan: level DONE and a msg mentioning EXEC (a missing msg reads as ""). */
  predicate IsExecDone(e: Value) {
    GetOr(e, "level", Null) == Str("DONE") && MsgHasExec(GetOr(e, "msg", Str("")))
  }

  /** The command record of a bash `tool_use` entry; a missing or non-string text field reads as "". */
  function BashRecord(e: Value): Option<TimelineCommand> {
    var part := GetOr(Sub(e, "data"), "part", Obj(map[]));
    if GetOr(e, "level", Null) == Str("OPENCODE") && GetOr(e, "msg", Null) == Str("tool_use")
       && part.Obj? && GetOr(part, "type", Null) == Str("tool") && GetOr(part, "tool", Null) == Str("bash")
    then
      var state := Sub(part, "state");
      var input := Sub(state, "input");
      Some(TimelineCommand(StrOr(input, "command", ""), StrOr(input, "description", ""),
                           GetOr(Sub(state, "metadata"), "exit", Null),
                           TruncateOutput(StrOr(state, "output", ""))))
    else None
  }

  /** The decoded lines of the timeline; a line that is not valid JSON is skipped. */
  function Decoded(lines: seq<string>, parse: Parser): seq<Value>
    decreases |lines|
  {
    if lines == [] then []
    else
      var rest := Decoded(lines[1..], parse);
      match parse(lines[0])
      case Some(v) => [v] + rest
      case None => rest
  }

  /** The scan: bash records, in order, until the first EXEC DONE entry. */
  function Collected(es: seq<Value>): seq<TimelineCommand>
    decreases |es|
  {
    if es == [] || IsExecDone(es[0]) then []
    else
      var rest := Collected(es[1..]);
      match BashRecord(es[0])
      case Some(c) => [c] + rest
      case None => rest
  }

  /**
   * `extract_timeline_commands`: `dirFound` says whether the run's directory
   * exists, and `timeline` is `None` when its timeline file does not.
   */
  method ExtractTimelineCommands(dirFound: bool, timeline: Option<seq<string>>, parse: Parser)
    returns (r: Option<seq<TimelineCommand>>)
    ensures r.None? <==> !dirFound || timeline.None?
    ensures r.Some? ==> r.value == Collected(Decoded(timeline.value, parse))
  {
    if !dirFound || timeline.None? {
      return None;
    }
    var lines := timeline.value;
    var commands := [];
    var i := 0;
    while i < |lines|
      invariant 0 <= i <= |lines|
      invariant commands + Collected(Decoded(lines[i..], parse)) == Collected(Decoded(lines, parse))
    {
      assert lines[i..][1..] == lines[i + 1..];
      var entry := parse(lines[i]);
      if entry.Some? {
        var e := entry.value;
        if IsExecDone(e) {
          assert commands == Collected(Decoded(lines, parse));
          break;
        }
        var c := ReadBash(e);
        if c.Some? {
          commands := commands + [c.value];
        }
      }
      i := i + 1;
    }
    if i == |lines| {
      assert lines[i..] == [];
    }
    return Some(commands);
  }

  /** The bash branch of the scan. */
  method ReadBash(e: Value) returns (c: Option<TimelineCommand>)
    ensures c == BashRecord(e)
  {
    c := None;
    if GetOr(e, "level", Null) == Str("OPENCODE") && GetOr(e, "msg", Null) == Str("tool_use") {
      var entryData := Sub(e, "data");
      var part := GetOr(entryData, "part", Obj(map[]));
      if part.Obj? && GetOr(part, "type", Null) == Str("tool") {
        var tool := GetOr(part, "tool", Null);
        var state := Sub(part, "state");
        if tool == Str("bash") {
          var cmd := StrOr(Sub(state, "input"), "command", "");
          var desc := StrOr(Sub(state, "input"), "description", "");
          var exitCode := GetOr(Sub(state, "metadata"), "exit", Null);
          var output := StrOr(state, "output", "");
          if |output| > OUTPUT_LIMIT {
            output := output[..OUTPUT_LIMIT] + TRUNCATED;
          }
          c := Some(TimelineCommand(cmd, desc, exitCode, output));
        }
      }
    }
  }

  // ---- reference definitions for the scan ----

  /** The index of the first EXEC DONE entry, or the length when there is none. */
  function FirstExecDone(es: seq<Value>): (k: nat)
    ensures k <= |es|
    ensures forall j | 0 <= j < k :: !IsExecDone(es[j])
    ensures k < |es| ==> IsExecDone(es[k])
    decreases |es|
  {
    if es == [] || IsExecDone(es[0]) then 0 else FirstExecDone(es[1..]) + 1
  }

  /** The bash records of all of `es`, in order. */
  function Records(es: seq<Value>): seq<TimelineCommand>
    decreases |es|
  {
    if es == [] then []
    else (match BashRecord(es[0]) case Some(c) => [c] case None => []) + Records(es[1..])
  }

  // ---- properties of the scan ----

  /** The scan collects exactly the bash records before the first EXEC DONE entry. */
  lemma {:induction false} CollectedMeans(es: seq<Value>)
    ensures Collected(es) == Records(es[..FirstExecDone(es)])
    decreases |es|
  {
    if es != [] && !IsExecDone(es[0]) {
      CollectedMeans(es[1..]);
      var k := FirstExecDone(es);
      assert es[..k][1..] == es[1..][..k - 1];
    }
  }

  /** Nothing after the first EXEC DONE entry is read. */
  lemma {:induction false} CollectedStops(es: seq<Value>, tail: seq<Value>)
    requires FirstExecDone(es) < |es|
    ensures Collected(es + tail) == Collected(es)
    decreases |es|
  {
    assert (es + tail)[0] == es[0];
    if !IsExecDone(es[0]) {
      assert (es + tail)[1..] == es[1..] + tail;
      CollectedStops(es[1..], tail);
    }
  }

  /** Every collected record is the record of an entry, and appears in entry order. */
  lemma {:induction false} RecordsFromEntries(es: seq<Value>)
    ensures forall c | c in Records(es) :: exists i | 0 <= i < |es| :: BashRecord(es[i]) == Some(c)
    decreases |es|
  {
    if es != [] {
      RecordsFromEntries(es[1..]);
      forall c | c in Records(es)
        ensures exists i | 0 <= i < |es| :: BashRecord(es[i]) == Some(c)
      {
        if BashRecord(es[0]) == Some(c) {
          assert BashRecord(es[0]) == Some(c);
        } else {
          assert c in Records(es[1..]);
          var i :| 0 <= i < |es[1..]| && BashRecord(es[1..][i]) == Some(c);
          assert BashRecord(es[i + 1]) == Some(c);
        }
      }
    }
  }

  /** A collected output is at most 515 characters long. */
  lemma {:induction false} CollectedOutputsBounded(es: seq<Value>)
    ensures forall c | c in Collected(es) :: |c.output| <= OUTPUT_LIMIT + |TRUNCATED|
    decreases |es|
  {
    if es != [] && !IsExecDone(es[0]) {
      CollectedOutputsBounded(es[1..]);
    }
  }

  // ---- format_commands_for_llm ----

  const SUCCESS := "\U{2713} SUCCESS"
  const FAILED := "\U{2717} FAILED (exit "
  const UNKNOWN := "? UNKNOWN"

  /** The status line's verdict on an exit code. */
  function Status(exitCode: Value): string {
    if IsZero(exitCode) then SUCCESS
    else if exitCode != Null then FAILED + Render(exitCode) + ")"
    else UNKNOWN
  }

  /** Success exactly for exit code 0, unknown exactly for a missing exit code, failed with the code otherwise. */
  lemma StatusMeans(v: Value)
    ensures Status(v) == SUCCESS <==> IsZero(v)
    ensures Status(v) == UNKNOWN <==> v == Null
    ensures !IsZero(v) && v != Null ==> StartsWith(Status(v), FAILED) && Status(v)[0] == '\U{2717}'
  {
    assert SUCCESS[0] == '\U{2713}' && UNKNOWN[0] == '?';
    if !IsZero(v) && v != Null {
      assert Status(v)[0] == FAILED[0];
    }
  }

  /** The heading, status and command lines of command number `n`. */
  function Header(n: nat, c: TimelineCommand): seq<string> {
    ["\n### Command " + NatToString(n) + ": " + c.description,
     "**Status:** " + Status(c.exitCode),
     "**Command:**",
     "```bash",
     c.command,
     "```"]
  }

  /** The output lines: present only when the output is not blank, with at most 800 characters of it. */
  function OutputLines(c: TimelineCommand): seq<string> {
    if !IsBlank(c.output) then ["**Output:**", "```", Take(c.output, PROMPT_OUTPUT_LIMIT), "```"] else []
  }

  /** The prompt lines for command number `n`. */
  function Block(n: nat, c: TimelineCommand): seq<string> {
    Header(n, c) + OutputLines(c)
  }

  /** The prompt lines of the commands, numbered from 1. */
  function PromptLines(cs: seq<TimelineCommand>): seq<string>
    decreases |cs|
  {
    if cs == [] then [] else PromptLines(cs[..|cs| - 1]) + Block(|cs|, cs[|cs| - 1])
  }

  /** `format_commands_for_llm`. */
  method FormatCommandsForLlm(commands: seq<TimelineCommand>) returns (text: string)
    ensures text == Join("\n", PromptLines(commands))
  {
    var formatted := [];
    var i := 0;
    while i < |commands|
      invariant 0 <= i <= |commands|
      invariant formatted == PromptLines(commands[..i])
    {
      PromptLinesStep(commands, i);
      formatted := AppendBlock(formatted, i + 1, commands[i]);
      i := i + 1;
    }
    assert commands[..i] == commands;
    text := Join("\n", formatted);
  }

  /** The lines of one command. */
  method AppendBlock(formatted: seq<string>, n: nat, cmd: TimelineCommand) returns (f: seq<string>)
    ensures f == formatted + Block(n, cmd)
  {
    f := AppendHeader(formatted, n, cmd);
    if cmd.output != [] && !IsBlank(cmd.output) {
      f := AppendOutput(f, cmd);
    } else {
      assert OutputLines(cmd) == [];
    }
  }

  lemma PromptLinesStep(cs: seq<TimelineCommand>, i: nat)
    requires i < |cs|
    ensures PromptLines(cs[..i + 1]) == PromptLines(cs[..i]) + Block(i + 1, cs[i])
  {
    assert cs[..i + 1][..i] == cs[..i];
  }

  method AppendHeader(formatted: seq<string>, n: nat, cmd: TimelineCommand) returns (f: seq<string>)
    ensures f == formatted + Header(n, cmd)
  {
    var status := Status(cmd.exitCode);
    f := formatted + ["\n### Command " + NatToString(n) + ": " + cmd.description];
    f := f + ["**Status:** " + status];
    f := f + ["**Command:**"];
    f := f + ["```bash"];
    f := f + [cmd.command];
    f := f + ["```"];
  }

  method AppendOutput(formatted: seq<string>, cmd: TimelineCommand) returns (f: seq<string>)
    requires !IsBlank(cmd.output)
    ensures f == formatted + OutputLines(cmd)
  {
    f := formatted + ["**Output:**"];
    f := f + ["```"];
    f := f + [Take(cmd.output, PROMPT_OUTPUT_LIMIT)];
    f := f + ["```"];
  }

  // ---- properties of the prompt ----

  /** The block of the first commands is a prefix of the whole prompt. */
  lemma {:induction false} PromptLinesPrefix(cs: seq<TimelineCommand>, k: nat)
    requires k <= |cs|
    ensures PromptLines(cs[..k]) <= PromptLines(cs)
    decreases |cs| - k
  {
    if k < |cs| {
      var init := cs[..|cs| - 1];
      assert init[..k] == cs[..k];
      PromptLinesPrefix(init, k);
    } else {
      assert cs[..k] == cs;
    }
  }

  /** Command `k` (from 0) appears as block number `k + 1`, right after the blocks of the commands before it. */
  lemma CommandBlock(cs: seq<TimelineCommand>, k: nat)
    requires k < |cs|
    ensures var start, b := |PromptLines(cs[..k])|, Block(k + 1, cs[k]);
      start + |b| <= |PromptLines(cs)| && PromptLines(cs)[start..start + |b|] == b
  {
    PromptLinesStep(cs, k);
    PromptLinesPrefix(cs, k + 1);
    SliceOfPrefix(PromptLines(cs[..k]), Block(k + 1, cs[k]), PromptLines(cs));
  }

  /** A block has the output part exactly when the output is not blank, and then shows at most 800 characters of it. */
  lemma BlockOutput(n: nat, c: TimelineCommand)
    ensures |Block(n, c)| == (if IsBlank(c.output) then 6 else 10)
    ensures !IsBlank(c.output) ==>
      Block(n, c)[8] == c.output[..Min(|c.output|, PROMPT_OUTPUT_LIMIT)] && |Block(n, c)[8]| <= PROMPT_OUTPUT_LIMIT
    ensures Block(n, c)[4] == c.command
  {
  }
}
