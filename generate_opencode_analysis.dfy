/**
 * The OpenCode defender analysis: the run number in a run directory's name,
 * the classification of a containment command into an action type, the scan
 * of a run's responder timeline for tool use and bash commands, and the
 * count of runs per action type behind the action frequency table.
 */
module GenerateOpencodeAnalysis {
  import opened Wrappers
  import opened Text
  import opened Json
  import opened Counting

  // ---- _extract_run_number ----

  /** The longest all-digit suffix of `s`. */
  function TrailingDigits(s: string): (d: string)
    ensures |d| <= |s| && d == s[|s| - |d|..]
    ensures forall i | 0 <= i < |d| :: IsDigit(d[i])
    ensures |d| < |s| ==> !IsDigit(s[|s| - |d| - 1])
    decreases |s|
  {
    if s != [] && IsDigit(s[|s| - 1]) then TrailingDigits(s[..|s| - 1]) + [s[|s| - 1]] else []
  }

  /** `re.search(r'run_(\d+)$', run_dir)`: the number after a trailing `run_`, if any. */
  function ExtractRunNumber(runDir: string): Option<nat> {
    var d := TrailingDigits(runDir);
    if d != [] && EndsWith(runDir[..|runDir| - |d|], "run_") then Some(DigitsValue(d)) else None
  }

  /** `run_` followed by digits up to the end of `s`, at index `i`. */
  predicate RunSuffixAt(s: string, i: int) {
    0 <= i && i + 4 < |s| && SubAt(s, "run_", i) && forall k | i + 4 <= k < |s| :: IsDigit(s[k])
  }

  /** The digit suffix is determined by where the digits end. */
  lemma {:induction false} TrailingDigitsAt(s: string, k: nat)
    requires k <= |s| && forall j | k <= j < |s| :: IsDigit(s[j])
    requires 0 < k ==> !IsDigit(s[k - 1])
    ensures TrailingDigits(s) == s[k..]
    decreases |s|
  {
    if k < |s| {
      var init := s[..|s| - 1];
      TrailingDigitsAt(init, k);
      assert init[k..] + [s[|s| - 1]] == s[k..];
    }
  }

  /** The regular expression matches exactly when some `run_` is followed by digits to the end, and the number is those digits. */
  lemma RunNumberMeans(s: string)
    ensures forall i | RunSuffixAt(s, i) :: ExtractRunNumber(s) == Some(DigitsValue(s[i + 4..]))
    ensures ExtractRunNumber(s).Some? ==> exists i :: RunSuffixAt(s, i)
  {
    forall i | RunSuffixAt(s, i)
      ensures ExtractRunNumber(s) == Some(DigitsValue(s[i + 4..]))
    {
      RunNumberAt(s, i);
    }
    if ExtractRunNumber(s).Some? {
      RunNumberHasSuffix(s);
    }
  }

  /** A `run_` followed by digits to the end gives those digits' value. */
  lemma RunNumberAt(s: string, i: int)
    requires RunSuffixAt(s, i)
    ensures ExtractRunNumber(s) == Some(DigitsValue(s[i + 4..]))
  {
    assert s[i + 3] == s[i..i + 4][3] == '_';
    TrailingDigitsAt(s, i + 4);
    var head := s[..i + 4];
    assert head[|head| - 4..] == s[i..i + 4];
  }

  /** A match has a `run_` followed by digits to the end. */
  lemma RunNumberHasSuffix(s: string)
    requires ExtractRunNumber(s).Some?
    ensures exists i :: RunSuffixAt(s, i)
  {
    var d := TrailingDigits(s);
    var i := |s| - |d| - 4;
    var head := s[..|s| - |d|];
    assert s[i..i + 4] == head[|head| - 4..];
    assert RunSuffixAt(s, i);
  }

  // ---- _categorize_action ----

  /** The action types that `_categorize_action` names. */
  datatype Action =
    | BlockOutbound | BlockInbound | FirewallModification | CheckConnections | VerifyFirewall
    | KillProcess | ListProcesses | StopService | CheckServiceStatus | ServiceManagement
    | SearchLogs | SearchLogsForIocs | PreserveLogs | CheckSystemLogs | CheckUserAccounts
    | SearchDumpFiles | DeleteFile | CheckScheduledTasks | BackupConfiguration
    | SearchVerify | ReadFile | ListFiles | Other

  /** `_categorize_action`: the first test that the lower-cased command passes; the description is not read. */
  function CategorizeAction(command: string, description: string): Action {
    var c := Lower(command);
    if Contains(c, "iptables") && Contains(c, "-a output") then BlockOutbound
    else if Contains(c, "iptables") && Contains(c, "-a input") then BlockInbound
    else if Contains(c, "iptables") then FirewallModification
    else if Contains(c, "netstat") || Contains(c, "ss ") || Contains(c, "lsof -i") then CheckConnections
    else if Contains(c, "iptables") && (Contains(c, "-l") || Contains(c, "--list")) then VerifyFirewall
    else if Contains(c, "kill") || Contains(c, "pkill") then KillProcess
    else if Contains(c, "ps aux") then ListProcesses
    else if Contains(c, "systemctl") || Contains(c, "service") then
      if Contains(c, "stop") then StopService
      else if Contains(c, "status") then CheckServiceStatus
      else ServiceManagement
    else if Contains(c, "find") && (Contains(c, "/var/log") || Contains(c, "*.log")) then SearchLogs
    else if Contains(c, "grep") && (Contains(c, "137.184.126.86") || Contains(c, "/var/log")) then SearchLogsForIocs
    else if Contains(c, "cp -r") && Contains(c, "/var/log") then PreserveLogs
    else if Contains(c, "journalctl") then CheckSystemLogs
    else if Contains(c, "lastlog") || Contains(c, "/etc/passwd") then CheckUserAccounts
    else if Contains(c, "find") && (Contains(c, "dump") || Contains(c, "pg")) then SearchDumpFiles
    else if Contains(c, "rm ") || Contains(c, "-delete") then DeleteFile
    else if Contains(c, "crontab") then CheckScheduledTasks
    else if Contains(c, "iptables-save") || Contains(c, "backup") then BackupConfiguration
    else if Contains(c, "grep") then SearchVerify
    else if Contains(c, "cat") then ReadFile
    else if Contains(c, "ls") || Contains(c, "find") then ListFiles
    else Other
  }

  /** "Verify firewall rules" is unreachable: every command naming iptables is caught by the three rules before it. */
  lemma VerifyFirewallUnreachable(command: string, description: string)
    ensures CategorizeAction(command, description) != VerifyFirewall
  {
  }

  /** The iptables rules: a command names iptables exactly when it is one of the three firewall actions. */
  lemma IptablesFamily(command: string, description: string)
    ensures Contains(Lower(command), "iptables")
      <==> CategorizeAction(command, description) in {BlockOutbound, BlockInbound, FirewallModification}
  {
  }

  /** An `iptables-save` command is a firewall action, never "Backup configuration". */
  lemma IptablesSaveIsNotBackup(command: string, description: string)
    requires Contains(Lower(command), "iptables-save")
    ensures CategorizeAction(command, description) in {BlockOutbound, BlockInbound, FirewallModification}
  {
    NamesIptables(Lower(command));
    IptablesFamily(command, description);
  }

  /** An `iptables-save` command names iptables. */
  lemma NamesIptables(c: string)
    ensures Contains(c, "iptables-save") ==> Contains(c, "iptables")
  {
    if Contains(c, "iptables-save") {
      assert "iptables" <= "iptables-save";
      ContainsPrefix("iptables-save", "iptables");
      ContainsTrans(c, "iptables-save", "iptables");
    }
  }

  /** A `pkill` command names kill. */
  lemma NamesKill(c: string)
    ensures Contains(c, "pkill") ==> Contains(c, "kill")
  {
    if Contains(c, "pkill") {
      ContainsPrefix("kill", "kill");
      ContainsRight("p", "kill", "kill");
      assert "p" + "kill" == "pkill";
      ContainsTrans(c, "pkill", "kill");
    }
  }

  /** None of the words that decide a rule on their own, or lead one of its conjunctions, occurs in `c`. */
  predicate NoLeadWord(c: string) {
    && !Contains(c, "iptables") && !Contains(c, "netstat") && !Contains(c, "ss ") && !Contains(c, "lsof -i")
    && !Contains(c, "kill") && !Contains(c, "ps aux") && !Contains(c, "systemctl") && !Contains(c, "service")
    && !Contains(c, "find") && !Contains(c, "grep") && !Contains(c, "journalctl") && !Contains(c, "lastlog")
    && !Contains(c, "/etc/passwd") && !Contains(c, "rm ") && !Contains(c, "-delete") && !Contains(c, "crontab")
    && !Contains(c, "backup") && !Contains(c, "cat") && !Contains(c, "ls")
  }

  /** A command is "Other" exactly when it passes none of the tests. */
  lemma OtherWhenNothingMatches(command: string, description: string)
    ensures var c := Lower(command);
      CategorizeAction(command, description) == Other <==>
        (NoLeadWord(c) && !(Contains(c, "cp -r") && Contains(c, "/var/log")))
  {
    NamesKill(Lower(command));
    NamesIptables(Lower(command));
  }

  // ---- the timeline scan of _parse_run ----

  /** One collected bash command. */
  datatype Command = Command(command: string, description: string, exitCode: Value)

  /** A bash command together with the action type `_categorize_action` gives it. */
  datatype Bash = Bash(cmd: Command, action: Action)

  /** What the scan tells apart in a decoded entry. */
  datatype Entry =
    | DoneEntry
    | ToolUse(tool: Value, bash: Option<Bash>)
    | OtherEntry

  /** The part of the run data the timeline scan fills in. */
  datatype RunScan = RunScan(
    successFound: bool, tools: map<Value, nat>, commands: seq<Command>, actions: map<Action, seq<string>>)

  const EMPTY_SCAN := RunScan(false, map[], [], map[])

  predicate IsDone(e: Value) {
    GetOr(e, "level", Null) == Str("DONE")
  }

  /** The tool part of an OPENCODE `tool_use` entry, when it is an object of type `tool`. */
  function ToolPart(e: Value): Option<Value> {
    var part := GetOr(Sub(e, "data"), "part", Obj(map[]));
    if GetOr(e, "level", Null) == Str("OPENCODE") && GetOr(e, "msg", Null) == Str("tool_use")
       && part.Obj? && GetOr(part, "type", Null) == Str("tool")
    then Some(part) else None
  }

  function ToolOf(part: Value): Value {
    GetOr(part, "tool", Null)
  }

  /** The command record of a bash tool part; a missing or non-string field reads as "N/A". */
  function BashCommand(part: Value): Command {
    var state := Sub(part, "state");
    var input := Sub(state, "input");
    Command(StrOr(input, "command", "N/A"), StrOr(input, "description", "N/A"),
            GetOr(Sub(state, "metadata"), "exit", Null))
  }

  function Typed(c: Command): Bash {
    Bash(c, CategorizeAction(c.command, c.description))
  }

  /** The view of an entry the scan acts on: a DONE marker, a tool use (with its bash command), or neither. */
  function Classify(e: Value): Entry {
    if IsDone(e) then DoneEntry
    else match ToolPart(e)
      case None => OtherEntry
      case Some(part) =>
        var tool := ToolOf(part);
        ToolUse(tool, if tool == Str("bash") then Some(Typed(BashCommand(part))) else None)
  }

  /** `data['actions'][action_type].append(cmd)`. */
  function AppendAction(m: map<Action, seq<string>>, a: Action, cmd: string): map<Action, seq<string>> {
    m[a := (if a in m then m[a] else []) + [cmd]]
  }

  /** What one entry adds, once `success_found` has been updated for it. */
  function ReadEntry(st: RunScan, en: Entry): RunScan {
    match en
    case ToolUse(tool, bash) =>
      var st1 := if Truthy(tool) then st.(tools := Bump(st.tools, tool)) else st;
      if bash.Some? && !st1.successFound then
        st1.(commands := st1.commands + [bash.value.cmd],
             actions := AppendAction(st1.actions, bash.value.action, bash.value.cmd.command))
      else st1
    case _ => st
  }

  /** The scan over the classified entries: it stops at the second DONE. */
  function ScanEntries(st: RunScan, es: seq<Entry>): RunScan
    decreases |es|
  {
    if es == [] then st
    else if es[0].DoneEntry? && st.successFound then st
    else ScanEntries(Next(st, es[0]), es[1..])
  }

  /** One step of the scan: a DONE sets `success_found`, then the entry is read. */
  function Next(st: RunScan, en: Entry): RunScan {
    ReadEntry(if en.DoneEntry? then st.(successFound := true) else st, en)
  }

  /** The classified entries of the lines that decode; a line that does not decode is skipped. */
  function Entries(lines: seq<string>, parse: Parser): seq<Entry>
    decreases |lines|
  {
    if lines == [] then []
    else
      var rest := Entries(lines[1..], parse);
      match parse(lines[0])
      case Some(v) => [Classify(v)] + rest
      case None => rest
  }

  /** The timeline part of `_parse_run`; `timeline` is `None` when the file does not exist. */
  method ScanTimeline(timeline: Option<seq<string>>, parse: Parser) returns (data: RunScan)
    ensures timeline.None? ==> data == EMPTY_SCAN
    ensures timeline.Some? ==> data == ScanEntries(EMPTY_SCAN, Entries(timeline.value, parse))
  {
    data := EMPTY_SCAN;
    if timeline.None? {
      return;
    }
    var lines := timeline.value;
    var i := 0;
    while i < |lines|
      invariant 0 <= i <= |lines|
      invariant ScanEntries(data, Entries(lines[i..], parse)) == ScanEntries(EMPTY_SCAN, Entries(lines, parse))
    {
      assert lines[i..][1..] == lines[i + 1..];
      var entry := parse(lines[i]);
      if entry.Some? {
        var e := entry.value;
        if IsDone(e) {
          if data.successFound {
            break;
          }
          data := data.(successFound := true);
        }
        data := ReadToolUse(data, e);
      }
      i := i + 1;
    }
    assert lines[|lines|..] == [];
  }

  /** The `tool_use` branch of the scan. */
  method ReadToolUse(data: RunScan, e: Value) returns (data': RunScan)
    ensures data' == ReadEntry(data, Classify(e))
  {
    data' := data;
    var part := ToolPart(e);
    if part.Some? {
      var tool := ToolOf(part.value);
      if Truthy(tool) {
        data' := data'.(tools := Bump(data'.tools, tool));
      }
      if tool == Str("bash") {
        var c := BashCommand(part.value);
        if !data'.successFound {
          data' := data'.(commands := data'.commands + [c]);
          var actionType := CategorizeAction(c.command, c.description);
          data' := data'.(actions := AppendAction(data'.actions, actionType, c.command));
        }
      }
    }
  }

  // ---- reference definitions for the scan ----

  /** The index of the first DONE entry, or the length when there is none. */
  function FirstDone(es: seq<Entry>): (k: nat)
    ensures k <= |es|
    ensures forall j | 0 <= j < k :: !es[j].DoneEntry?
    ensures k < |es| ==> es[k].DoneEntry?
    decreases |es|
  {
    if es == [] then 0 else if es[0].DoneEntry? then 0 else FirstDone(es[1..]) + 1
  }

  /** The index of the second DONE entry, or the length when there is none. */
  function SecondDone(es: seq<Entry>): (k: nat)
    ensures FirstDone(es) <= k <= |es|
    ensures k < |es| ==> es[k].DoneEntry? && FirstDone(es) < k
  {
    var f := FirstDone(es);
    if f == |es| then f else f + 1 + FirstDone(es[f + 1..])
  }

  /** The bash commands of the tool uses among `es`, in order. */
  function BashOf(es: seq<Entry>): seq<Bash>
    decreases |es|
  {
    if es == [] then []
    else if es[0].ToolUse? && es[0].bash.Some? then [es[0].bash.value] + BashOf(es[1..])
    else BashOf(es[1..])
  }

  /** The truthy tool names of the tool uses among `es`, in order. */
  function ToolNames(es: seq<Entry>): seq<Value>
    decreases |es|
  {
    if es == [] then []
    else if es[0].ToolUse? && Truthy(es[0].tool) then [es[0].tool] + ToolNames(es[1..])
    else ToolNames(es[1..])
  }

  function Commands(bs: seq<Bash>): seq<Command> {
    seq(|bs|, i requires 0 <= i < |bs| => bs[i].cmd)
  }

  /** Each typed command as an (action type, command text) pair. */
  function Pairs(bs: seq<Bash>): seq<(Action, string)> {
    seq(|bs|, i requires 0 <= i < |bs| => (bs[i].action, bs[i].cmd.command))
  }

  /** Each command paired with the action type `_categorize_action` gives it. */
  function Tagged(cs: seq<Command>): seq<(Action, string)> {
    seq(|cs|, i requires 0 <= i < |cs| => (CategorizeAction(cs[i].command, cs[i].description), cs[i].command))
  }

  /** The action lists of a list of typed commands: each command under its type, in order. */
  function Group(ps: seq<(Action, string)>): map<Action, seq<string>>
    decreases |ps|
  {
    if ps == [] then map[]
    else AppendAction(Group(ps[..|ps| - 1]), ps[|ps| - 1].0, ps[|ps| - 1].1)
  }

  /** The commands of type `a` among `ps`, in order. */
  function OfType(ps: seq<(Action, string)>, a: Action): seq<string>
    decreases |ps|
  {
    if ps == [] then []
    else OfType(ps[..|ps| - 1], a) + (if ps[|ps| - 1].0 == a then [ps[|ps| - 1].1] else [])
  }

  // ---- properties of the scan ----

  lemma SecondDoneStep(es: seq<Entry>)
    requires es != [] && !es[0].DoneEntry?
    ensures FirstDone(es) == 1 + FirstDone(es[1..])
    ensures SecondDone(es) == 1 + SecondDone(es[1..])
  {
    var f1 := FirstDone(es[1..]);
    if f1 < |es| - 1 {
      assert es[1 + f1 + 1..] == es[1..][f1 + 1..];
    }
  }

  lemma GroupSnoc(ps: seq<(Action, string)>, p: (Action, string))
    ensures Group(ps + [p]) == AppendAction(Group(ps), p.0, p.1)
  {
    assert (ps + [p])[..|ps|] == ps;
  }

  lemma CommandsAppend(a: seq<Bash>, b: seq<Bash>)
    ensures Commands(a + b) == Commands(a) + Commands(b)
    ensures Pairs(a + b) == Pairs(a) + Pairs(b)
  {
  }

  /** The tool name an entry counts, if any. */
  function NamesOf(en: Entry): seq<Value> {
    if en.ToolUse? && Truthy(en.tool) then [en.tool] else []
  }

  /** The bash command an entry collects, if any. */
  function BashesOf(en: Entry): seq<Bash> {
    if en.ToolUse? && en.bash.Some? then [en.bash.value] else []
  }

  /** The first entry of a non-empty prefix, split off. */
  lemma PrefixCons(es: seq<Entry>, k: nat)
    requires 0 < k <= |es|
    ensures ToolNames(es[..k]) == NamesOf(es[0]) + ToolNames(es[1..][..k - 1])
    ensures BashOf(es[..k]) == BashesOf(es[0]) + BashOf(es[1..][..k - 1])
  {
    assert es[..k][1..] == es[1..][..k - 1];
  }

  /** Where the tool counting stops: the first DONE once `success_found` is set, the second before. */
  function Stop(st: RunScan, es: seq<Entry>): (k: nat)
    ensures k <= |es|
  {
    if st.successFound then FirstDone(es) else SecondDone(es)
  }

  lemma StopStep(st: RunScan, es: seq<Entry>)
    requires es != [] && !(es[0].DoneEntry? && st.successFound)
    ensures Next(st, es[0]).successFound == (st.successFound || es[0].DoneEntry?)
    ensures Stop(st, es) == 1 + Stop(Next(st, es[0]), es[1..])
  {
    if !es[0].DoneEntry? {
      SecondDoneStep(es);
    }
  }

  /** What one step adds to the tool counts. */
  lemma NextTools(st: RunScan, en: Entry, ts: seq<Value>)
    requires st.tools == Tally(ts)
    ensures Next(st, en).tools == Tally(ts + NamesOf(en))
  {
    if en.ToolUse? && Truthy(en.tool) {
      TallySnoc(ts, en.tool);
    } else {
      assert ts + [] == ts;
    }
  }

  /** What one step before `success_found` adds to the commands and the action lists. */
  lemma NextCommands(st: RunScan, en: Entry, ps: seq<(Action, string)>)
    requires !st.successFound && !en.DoneEntry? && st.actions == Group(ps)
    ensures !Next(st, en).successFound
    ensures Next(st, en).commands == st.commands + Commands(BashesOf(en))
    ensures Next(st, en).actions == Group(ps + Pairs(BashesOf(en)))
  {
    if en.ToolUse? && en.bash.Some? {
      var b := en.bash.value;
      GroupSnoc(ps, (b.action, b.cmd.command));
      assert Pairs([b]) == [(b.action, b.cmd.command)];
    } else {
      assert st.commands + [] == st.commands;
      assert ps + [] == ps;
    }
  }

  /** Once `success_found` is set, the scan collects no more commands. */
  lemma {:induction false} ScanFoundKeepsCommands(st: RunScan, es: seq<Entry>)
    requires st.successFound
    ensures ScanEntries(st, es).commands == st.commands
    ensures ScanEntries(st, es).actions == st.actions
    decreases |es|
  {
    if es != [] && !es[0].DoneEntry? {
      ScanFoundKeepsCommands(Next(st, es[0]), es[1..]);
    }
  }

  /**
   * Before `success_found` is set, the scan collects the bash commands up to
   * the first DONE, and files each under its action type.
   */
  lemma {:induction false} ScanCollects(st: RunScan, es: seq<Entry>, ps: seq<(Action, string)>)
    requires !st.successFound && st.actions == Group(ps)
    ensures var bs := BashOf(es[..FirstDone(es)]);
      && ScanEntries(st, es).commands == st.commands + Commands(bs)
      && ScanEntries(st, es).actions == Group(ps + Pairs(bs))
    decreases |es|
  {
    if es == [] || es[0].DoneEntry? {
      if es != [] {
        ScanFoundKeepsCommands(Next(st, es[0]), es[1..]);
      }
      assert es[..FirstDone(es)] == [];
      assert st.commands + [] == st.commands;
      assert ps + [] == ps;
    } else {
      NextCommands(st, es[0], ps);
      ScanCollects(Next(st, es[0]), es[1..], ps + Pairs(BashesOf(es[0])));
      CollectsStep(st, es, ps);
    }
  }

  /** The inductive step of `ScanCollects`. */
  lemma CollectsStep(st: RunScan, es: seq<Entry>, ps: seq<(Action, string)>)
    requires !st.successFound && es != [] && !es[0].DoneEntry?
    requires var r, mine, tail := ScanEntries(Next(st, es[0]), es[1..]), BashesOf(es[0]), BashOf(es[1..][..FirstDone(es[1..])]);
      && r.commands == st.commands + Commands(mine) + Commands(tail)
      && r.actions == Group(ps + Pairs(mine) + Pairs(tail))
    ensures var bs := BashOf(es[..FirstDone(es)]);
      && ScanEntries(st, es).commands == st.commands + Commands(bs)
      && ScanEntries(st, es).actions == Group(ps + Pairs(bs))
  {
    BashStep(st, es, ps);
    ScanStep(st, es);
  }

  /** The collected commands, split after the first entry. */
  lemma BashStep(st: RunScan, es: seq<Entry>, ps: seq<(Action, string)>)
    requires es != [] && !es[0].DoneEntry?
    ensures var mine, tail, bs := BashesOf(es[0]), BashOf(es[1..][..FirstDone(es[1..])]), BashOf(es[..FirstDone(es)]);
      && st.commands + Commands(mine) + Commands(tail) == st.commands + Commands(bs)
      && ps + Pairs(mine) + Pairs(tail) == ps + Pairs(bs)
  {
    SecondDoneStep(es);
    var mine, tail := BashesOf(es[0]), BashOf(es[1..][..FirstDone(es[1..])]);
    PrefixCons(es, FirstDone(es));
    assert BashOf(es[..FirstDone(es)]) == mine + tail;
    CommandsAppend(mine, tail);
    SeqAssoc(st.commands, Commands(mine), Commands(tail));
    SeqAssoc(ps, Pairs(mine), Pairs(tail));
  }

  /** The tools counted from a state whose counts are those of `ts`. */
  lemma {:induction false} ScanTallies(st: RunScan, es: seq<Entry>, ts: seq<Value>)
    requires st.tools == Tally(ts)
    ensures ScanEntries(st, es).tools == Tally(ts + ToolNames(es[..Stop(st, es)]))
    decreases |es|
  {
    if es == [] || (es[0].DoneEntry? && st.successFound) {
      assert es[..Stop(st, es)] == [];
      assert ts + [] == ts;
    } else {
      NextTools(st, es[0], ts);
      ScanTallies(Next(st, es[0]), es[1..], ts + NamesOf(es[0]));
      TalliesStep(st, es, ts);
    }
  }

  /** The inductive step of `ScanTallies`. */
  lemma TalliesStep(st: RunScan, es: seq<Entry>, ts: seq<Value>)
    requires es != [] && !(es[0].DoneEntry? && st.successFound)
    requires var st2 := Next(st, es[0]);
      ScanEntries(st2, es[1..]).tools == Tally(ts + NamesOf(es[0]) + ToolNames(es[1..][..Stop(st2, es[1..])]))
    ensures ScanEntries(st, es).tools == Tally(ts + ToolNames(es[..Stop(st, es)]))
  {
    ToolNamesStep(st, es, ts);
    ScanStep(st, es);
  }

  /** The counted tool names, split after the first entry. */
  lemma ToolNamesStep(st: RunScan, es: seq<Entry>, ts: seq<Value>)
    requires es != [] && !(es[0].DoneEntry? && st.successFound)
    ensures var st2 := Next(st, es[0]);
      ts + NamesOf(es[0]) + ToolNames(es[1..][..Stop(st2, es[1..])]) == ts + ToolNames(es[..Stop(st, es)])
  {
    StopStep(st, es);
    PrefixCons(es, Stop(st, es));
  }

  lemma ScanStep(st: RunScan, es: seq<Entry>)
    requires es != [] && !(es[0].DoneEntry? && st.successFound)
    ensures ScanEntries(st, es) == ScanEntries(Next(st, es[0]), es[1..])
  {
  }

  /** A classified bash command carries the action type of its own text. */
  predicate WellTyped(en: Entry) {
    en.ToolUse? && en.bash.Some? ==> en.bash.value == Typed(en.bash.value.cmd)
  }

  lemma {:induction false} EntriesWellTyped(lines: seq<string>, parse: Parser)
    ensures forall i | 0 <= i < |Entries(lines, parse)| :: WellTyped(Entries(lines, parse)[i])
    decreases |lines|
  {
    if lines != [] {
      EntriesWellTyped(lines[1..], parse);
    }
  }

  lemma {:induction false} BashOfTyped(es: seq<Entry>)
    requires forall i | 0 <= i < |es| :: WellTyped(es[i])
    ensures Pairs(BashOf(es)) == Tagged(Commands(BashOf(es)))
    decreases |es|
  {
    if es != [] {
      BashOfTyped(es[1..]);
      CommandsAppend(BashesOf(es[0]), BashOf(es[1..]));
    }
  }

  /** Commands are the bash tool uses before the first DONE, in order. */
  lemma ScanCommands(lines: seq<string>, parse: Parser)
    ensures var es := Entries(lines, parse);
      ScanEntries(EMPTY_SCAN, es).commands == Commands(BashOf(es[..FirstDone(es)]))
  {
    ScanCollects(EMPTY_SCAN, Entries(lines, parse), []);
  }

  /** Tool counts keep accumulating until the second DONE: each tool's count is its number of uses before it. */
  lemma ScanTools(lines: seq<string>, parse: Parser, tool: Value)
    ensures var es := Entries(lines, parse);
      var tools := ScanEntries(EMPTY_SCAN, es).tools;
      (tool in tools <==> tool in ToolNames(es[..SecondDone(es)]))
      && (tool in tools ==> tools[tool] == multiset(ToolNames(es[..SecondDone(es)]))[tool])
  {
    var es := Entries(lines, parse);
    ScanTallies(EMPTY_SCAN, es, []);
    assert Stop(EMPTY_SCAN, es) == SecondDone(es);
    assert [] + ToolNames(es[..SecondDone(es)]) == ToolNames(es[..SecondDone(es)]);
    TallyCounts(ToolNames(es[..SecondDone(es)]));
    TallyKeys(ToolNames(es[..SecondDone(es)]));
  }

  /** Each action list holds, in order, the commands of that type, and only types that occur have a list. */
  lemma {:induction false} GroupMeans(ps: seq<(Action, string)>, a: Action)
    ensures a in Group(ps) <==> exists i | 0 <= i < |ps| :: ps[i].0 == a
    ensures a in Group(ps) ==> Group(ps)[a] == OfType(ps, a)
    ensures a !in Group(ps) ==> OfType(ps, a) == []
    decreases |ps|
  {
    if ps != [] {
      var init := ps[..|ps| - 1];
      GroupMeans(init, a);
      assert forall i | 0 <= i < |init| :: init[i] == ps[i];
      if ps[|ps| - 1].0 != a && exists i | 0 <= i < |ps| :: ps[i].0 == a {
        var i :| 0 <= i < |ps| && ps[i].0 == a;
        assert i < |init|;
      }
    }
  }

  /** The action lists of a scanned timeline group its commands by the type `_categorize_action` gives each. */
  lemma ScanActions(lines: seq<string>, parse: Parser)
    ensures var r := ScanEntries(EMPTY_SCAN, Entries(lines, parse));
      r.actions == Group(Tagged(r.commands))
  {
    var es := Entries(lines, parse);
    ScanCollects(EMPTY_SCAN, es, []);
    var pre := es[..FirstDone(es)];
    EntriesWellTyped(lines, parse);
    BashOfTyped(pre);
    var bs := BashOf(pre);
    assert [] + Pairs(bs) == Pairs(bs);
    assert [] + Commands(bs) == Commands(bs);
  }

  // ---- generate_action_frequency_table ----

  /** The number of runs whose action lists include `a`. */
  function RunsWith(runs: seq<map<Action, seq<string>>>, a: Action): (n: nat)
    ensures n <= |runs|
    decreases |runs|
  {
    if runs == [] then 0
    else RunsWith(runs[..|runs| - 1], a) + (if a in runs[|runs| - 1] then 1 else 0)
  }

  function CountOf(m: map<Action, nat>, a: Action): nat {
    if a in m then m[a] else 0
  }

  /** The counting loops of `generate_action_frequency_table`: each run counts once per action type it has. */
  method CountActionFrequency(runs: seq<map<Action, seq<string>>>) returns (counts: map<Action, nat>)
    ensures forall a :: CountOf(counts, a) == RunsWith(runs, a)
    ensures forall a :: a in counts <==> RunsWith(runs, a) > 0
  {
    counts := map[];
    var i := 0;
    while i < |runs|
      invariant 0 <= i <= |runs|
      invariant forall a :: CountOf(counts, a) == RunsWith(runs[..i], a)
      invariant forall a :: a in counts <==> CountOf(counts, a) > 0
    {
      assert runs[..i + 1][..i] == runs[..i];
      var keys := runs[i].Keys;
      while keys != {}
        invariant keys <= runs[i].Keys
        invariant forall a :: CountOf(counts, a) == RunsWith(runs[..i], a) + (if a in runs[i].Keys - keys then 1 else 0)
        invariant forall a :: a in counts <==> CountOf(counts, a) > 0
        decreases keys
      {
        var actionType :| actionType in keys;
        counts := Bump(counts, actionType);
        keys := keys - {actionType};
      }
      i := i + 1;
    }
    assert runs[..i] == runs;
  }
}
