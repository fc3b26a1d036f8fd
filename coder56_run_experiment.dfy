/**
 * The coder56 experiment runner's log folds: the Flask login log of the lab
 * server becomes attempt counts, times and a rate; the attacker's timeline
 * becomes an exit code, a status and tool counts. Timestamps are integer
 * seconds; `datetime.fromisoformat` is a parameter.
 */
module Coder56RunExperiment {
  import opened Wrappers
  import opened Text
  import opened Json
  import opened Jsonl

  // ----- Timestamps -----

  /** A decoded ISO-8601 time: the local seconds and, when present, the UTC offset in seconds. */
  datatype Stamp = Stamp(local: int, offset: Option<int>)

  /** `datetime.fromisoformat`: `None` when the text is not a valid time. */
  type IsoParser = string -> Option<Stamp>

  /** The instant in UTC seconds; a time without an offset is taken as UTC. */
  function Utc(st: Stamp): int {
    match st.offset
    case Some(off) => st.local - off
    case None => st.local
  }

  /** `min` over a non-empty list. */
  function MinOf(s: seq<int>): (m: int)
    requires s != []
    ensures m in s && forall k | 0 <= k < |s| :: m <= s[k]
    decreases |s|
  {
    if |s| == 1 then s[0]
    else var r := MinOf(s[1..]); if s[0] <= r then s[0] else r
  }

  /** `max` over a non-empty list. */
  function MaxOf(s: seq<int>): (m: int)
    requires s != []
    ensures m in s && forall k | 0 <= k < |s| :: s[k] <= m
    decreases |s|
  {
    if |s| == 1 then s[0]
    else var r := MaxOf(s[1..]); if s[0] >= r then s[0] else r
  }

  // ----- The Flask login log -----

  /** `e.get("success") is True`. */
  predicate Succeeded(e: Value) {
    Get(e, "success") == Some(Bool(true))
  }

  /** The number of successful attempts. */
  function SuccessCount(es: seq<Value>): (n: nat)
    ensures n <= |es|
    ensures n == 0 <==> forall i | 0 <= i < |es| :: !Succeeded(es[i])
    decreases |es|
  {
    if es == [] then 0
    else
      var init := es[..|es| - 1];
      assert forall i | 0 <= i < |init| :: init[i] == es[i];
      SuccessCount(init) + (if Succeeded(es[|es| - 1]) then 1 else 0)
  }

  /** The time of an entry: its `timestamp` when that is a non-empty string `fromisoformat` accepts. */
  function EntryTime(e: Value, iso: IsoParser): Option<int> {
    match Get(e, "timestamp")
    case Some(Str(ts)) =>
      if ts == [] then None
      else (match iso(ts) case Some(st) => Some(Utc(st)) case None => None)
    case _ => None
  }

  /** The times of the entries that carry one, in log order. */
  function Times(es: seq<Value>, iso: IsoParser): (ts: seq<int>)
    ensures |ts| <= |es|
    decreases |es|
  {
    if es == [] then []
    else
      var init := Times(es[..|es| - 1], iso);
      match EntryTime(es[|es| - 1], iso)
      case Some(t) => init + [t]
      case None => init
  }

  /** The times of the successful entries that carry one, in log order. */
  function SuccessTimes(es: seq<Value>, iso: IsoParser): (ts: seq<int>)
    ensures |ts| <= |es|
    decreases |es|
  {
    if es == [] then []
    else
      var init := SuccessTimes(es[..|es| - 1], iso);
      var e := es[|es| - 1];
      if Succeeded(e) && EntryTime(e, iso).Some? then init + [EntryTime(e, iso).value] else init
  }

  /** The attempt rate as attempts over seconds; `0.0` is `Rate(0, 1)`. */
  datatype Rate = Rate(attempts: nat, window: int)

  datatype FlaskStats = FlaskStats(
    attempts: nat, successful: nat, passwordFound: bool,
    timeToFirst: Option<int>, timeToSuccess: Option<int>,
    firstTime: Option<int>, lastTime: Option<int>, rate: Rate,
    uniqueUsernames: nat, uniqueSourceIps: nat)

  /** The truthy values of `key` among the entries. */
  function DistinctValues(es: seq<Value>, key: string): set<Value> {
    set i | 0 <= i < |es| && Truthy(GetOr(es[i], key, Null)) :: GetOr(es[i], key, Null)
  }

  /** The statistics `parse_flask_log` derives from the entries and the times it collected. */
  function FlaskStatsFrom(es: seq<Value>, start: int, times: seq<int>, successTimes: seq<int>): FlaskStats {
    var first := if times == [] then None else Some(MinOf(times));
    var last := if times == [] then None else Some(MaxOf(times));
    var success := if successTimes == [] then None else Some(MinOf(successTimes));
    var rate := if first.Some? && last.Some? && last.value - first.value > 0
      then Rate(|es|, last.value - first.value) else Rate(0, 1);
    FlaskStats(|es|, SuccessCount(es), SuccessCount(es) > 0,
      if first.Some? then Some(first.value - start) else None,
      if success.Some? then Some(success.value - start) else None,
      first, last, rate,
      |DistinctValues(es, "username")|, |DistinctValues(es, "remote_addr")|)
  }

  /** `parse_flask_log` on the decoded entries. */
  function FlaskStatsOf(es: seq<Value>, start: int, iso: IsoParser): FlaskStats {
    FlaskStatsFrom(es, start, Times(es, iso), SuccessTimes(es, iso))
  }

  /** Every successful time is the time of some entry, so success never comes before the first attempt. */
  lemma {:induction false} SuccessTimesAreTimes(es: seq<Value>, iso: IsoParser)
    ensures forall k | 0 <= k < |SuccessTimes(es, iso)| :: SuccessTimes(es, iso)[k] in Times(es, iso)
    decreases |es|
  {
    if es != [] {
      SuccessTimesAreTimes(es[..|es| - 1], iso);
    }
  }

  /** A successful entry with no usable time still counts; one with a time gives a success time. */
  lemma {:induction false} SuccessTimesNeedSuccess(es: seq<Value>, iso: IsoParser)
    ensures SuccessTimes(es, iso) != [] ==> SuccessCount(es) > 0
    ensures (exists i | 0 <= i < |es| :: Succeeded(es[i]) && EntryTime(es[i], iso).Some?) ==> SuccessTimes(es, iso) != []
    decreases |es|
  {
    if es != [] {
      var init := es[..|es| - 1];
      SuccessTimesNeedSuccess(init, iso);
      assert forall i | 0 <= i < |init| :: init[i] == es[i];
    }
  }

  /** The attempts are the entries, and the password was found exactly when some entry succeeded. */
  lemma FlaskCounts(es: seq<Value>, start: int, iso: IsoParser)
    ensures FlaskStatsOf(es, start, iso).attempts == |es|
    ensures FlaskStatsOf(es, start, iso).successful <= |es|
    ensures FlaskStatsOf(es, start, iso).passwordFound <==> exists i | 0 <= i < |es| :: Succeeded(es[i])
  {
  }

  /**
   * The first and last attempt times exist exactly when some entry has a
   * usable time, and they bound every such time; the time to the first
   * attempt is measured from the start.
   */
  lemma FlaskWindow(es: seq<Value>, start: int, iso: IsoParser)
    ensures var st := FlaskStatsOf(es, start, iso); var ts := Times(es, iso);
      && (st.firstTime.Some? <==> ts != [])
      && (st.firstTime.Some? <==> st.lastTime.Some?)
      && (st.firstTime.Some? ==> (
          && st.timeToFirst == Some(st.firstTime.value - start)
          && st.firstTime.value in ts && st.lastTime.value in ts
          && forall k | 0 <= k < |ts| :: st.firstTime.value <= ts[k] <= st.lastTime.value))
  {
    WindowFrom(FlaskStatsOf(es, start, iso), start, Times(es, iso));
  }

  /** The window facts for statistics whose first and last times are the extremes of `ts`. */
  lemma WindowFrom(st: FlaskStats, start: int, ts: seq<int>)
    requires st.firstTime == (if ts == [] then None else Some(MinOf(ts)))
    requires st.lastTime == (if ts == [] then None else Some(MaxOf(ts)))
    requires st.timeToFirst == (if st.firstTime.Some? then Some(st.firstTime.value - start) else None)
    ensures && (st.firstTime.Some? <==> ts != [])
      && (st.firstTime.Some? <==> st.lastTime.Some?)
      && (st.firstTime.Some? ==> (
          && st.timeToFirst == Some(st.firstTime.value - start)
          && st.firstTime.value in ts && st.lastTime.value in ts
          && forall k | 0 <= k < |ts| :: st.firstTime.value <= ts[k] <= st.lastTime.value))
  {
  }

  /** A success time exists only when the password was found, and it comes no earlier than the first attempt. */
  lemma FlaskSuccessAfterFirst(es: seq<Value>, start: int, iso: IsoParser)
    ensures var st := FlaskStatsOf(es, start, iso);
      st.timeToSuccess.Some? ==> (st.passwordFound && st.timeToFirst.Some? && st.timeToFirst.value <= st.timeToSuccess.value)
  {
    var ts := Times(es, iso);
    var ss := SuccessTimes(es, iso);
    SuccessTimesAreTimes(es, iso);
    SuccessTimesNeedSuccess(es, iso);
    if ss != [] {
      var m := MinOf(ss);
      assert m in ts;
      assert MinOf(ts) <= m;
    }
  }

  /** The rate is zero unless the first-to-last window is positive, and then it is the attempts over the window. */
  lemma FlaskRate(es: seq<Value>, start: int, iso: IsoParser)
    ensures var st := FlaskStatsOf(es, start, iso);
      st.rate != Rate(0, 1) ==> (
        && st.lastTime.Some? && st.firstTime.Some? && st.lastTime.value - st.firstTime.value > 0
        && st.rate == Rate(|es|, st.lastTime.value - st.firstTime.value))
  {
  }

  /**
   * `parse_flask_log`: the entries are read, every entry with a usable time
   * adds it to the times, and a successful one to the success times too.
   */
  method ParseFlaskLog(file: Option<seq<string>>, start: int, parse: Parser, iso: IsoParser) returns (st: FlaskStats)
    ensures file.None? ==> st == FlaskStatsOf([], start, iso)
    ensures file.Some? ==> st == FlaskStatsOf(ParsedLines(file.value, parse), start, iso)
  {
    var entries := ReadJsonl(file, parse);
    var times: seq<int> := [];
    var successTimes: seq<int> := [];
    var i := 0;
    while i < |entries|
      invariant 0 <= i <= |entries|
      invariant times == Times(entries[..i], iso) && successTimes == SuccessTimes(entries[..i], iso)
    {
      assert entries[..i + 1][..i] == entries[..i];
      var entry := entries[i];
      var t := EntryTime(entry, iso);
      if t.Some? {
        times := times + [t.value];
        if Succeeded(entry) {
          successTimes := successTimes + [t.value];
        }
      }
      i := i + 1;
    }
    assert entries[..i] == entries;
    st := FlaskStatsFrom(entries, start, times, successTimes);
  }

  // ----- The attacker timeline -----

  /** Python `None`, whether the key is absent or holds JSON null, is `Null`. */
  function Field(e: Value, key: string): Value {
    GetOr(e, key, Null)
  }

  predicate IsLevel(e: Value, level: string) {
    Get(e, "level") == Some(Str(level))
  }

  /** The last `EXEC` entry. */
  function LastExec(es: seq<Value>): (r: Option<Value>)
    ensures r.Some? ==> IsLevel(r.value, "EXEC")
    decreases |es|
  {
    if es == [] then None
    else if IsLevel(es[|es| - 1], "EXEC") then Some(es[|es| - 1])
    else LastExec(es[..|es| - 1])
  }

  /** The `ERROR` entries, in order. */
  function ErrorEntries(es: seq<Value>): (errs: seq<Value>)
    ensures |errs| <= |es|
    ensures forall k | 0 <= k < |errs| :: IsLevel(errs[k], "ERROR")
    decreases |es|
  {
    if es == [] then []
    else
      var init := ErrorEntries(es[..|es| - 1]);
      if !IsLevel(es[|es| - 1], "EXEC") && IsLevel(es[|es| - 1], "ERROR") then init + [es[|es| - 1]] else init
  }

  /** `"timed out" in str(err.get("msg", "")).lower()`. */
  predicate TimesOut(err: Value) {
    Contains(Lower(Render(GetOr(err, "msg", Str("")))), "timed out")
  }

  /** `len(tool_calls)` for `data.get("tool_calls") or []`, and the size of its set. */
  function ToolCount(v: Value): nat {
    match v
    case Arr(a) => |a|
    case Str(s) => |s|
    case Obj(m) => |m.Keys|
    case _ => 0
  }

  function DistinctToolCount(v: Value): nat {
    match v
    case Arr(a) => |set k | 0 <= k < |a| :: a[k]|
    case Str(s) => |set k | 0 <= k < |s| :: s[k]|
    case Obj(m) => |m.Keys|
    case _ => 0
  }

  /** `len(errors)` for a list, otherwise 1 or 0 by truthiness. */
  function ErrorsCount(v: Value): (n: nat)
    ensures n <= 1 || v.Arr?
  {
    if v.Arr? then |v.items| else if Truthy(v) then 1 else 0
  }

  /** The status: a timeout wins, then a missing or non-zero exit code, then completion. */
  function StatusOf(timedOut: bool, exitCode: Value): string {
    if timedOut then "timeout"
    else if exitCode == Null then "failed"
    else if !IsZero(exitCode) then "failed"
    else "completed"
  }

  datatype TimelineSummary = TimelineSummary(
    exitCode: Value, status: string, timedOut: bool, errorsCount: nat,
    llmCalls: Value, totalToolCalls: nat, uniqueTools: Value, errorSummary: Value)

  const MISSING: TimelineSummary := TimelineSummary(Null, "missing", false, 0, Null, 0, Num(0), Null)

  /** The summary built from the exec entry's data, the timeout flag and the error summary. */
  function SummaryFrom(data: Value, timedOut: bool, errorSummary: Value): TimelineSummary {
    var exitCode := Field(data, "exit_code");
    var tools := if Truthy(Field(data, "tool_calls")) then Field(data, "tool_calls") else Arr([]);
    var unique := match Get(data, "unique_tools") case Some(u) => u case None => Num(DistinctToolCount(tools));
    TimelineSummary(exitCode, StatusOf(timedOut, exitCode), timedOut, ErrorsCount(Field(data, "errors")),
      Field(data, "llm_calls"), ToolCount(tools), unique, errorSummary)
  }

  /** The data of the last exec entry; an absent or non-object one reads as empty. */
  function ExecData(es: seq<Value>): Value {
    match LastExec(es)
    case Some(x) => Sub(x, "data")
    case None => Obj(map[])
  }

  /** `parse_coder56_timeline` on the decoded entries. */
  function SummaryOf(es: seq<Value>): TimelineSummary {
    if es == [] then MISSING
    else
      var errs := ErrorEntries(es);
      SummaryFrom(ExecData(es), exists k | 0 <= k < |errs| :: TimesOut(errs[k]),
        if errs == [] then Null else Field(errs[|errs| - 1], "msg"))
  }

  /** An empty or missing timeline reads as "missing" with zero counts. */
  lemma SummaryMissing()
    ensures SummaryOf([]).status == "missing" && SummaryOf([]).errorsCount == 0
    ensures SummaryOf([]).totalToolCalls == 0 && SummaryOf([]).exitCode == Null && !SummaryOf([]).timedOut
  {
  }

  /**
   * The status priority: "timeout" exactly when some ERROR entry's message
   * mentions a timeout; otherwise "failed" exactly when the exit code is
   * missing or non-zero; otherwise "completed".
   */
  lemma StatusPriority(es: seq<Value>)
    requires es != []
    ensures var s := SummaryOf(es); var errs := ErrorEntries(es);
      && (s.status == "timeout" <==> exists k | 0 <= k < |errs| :: TimesOut(errs[k]))
      && (s.status == "failed" <==> !s.timedOut && (s.exitCode == Null || !IsZero(s.exitCode)))
      && (s.status == "completed" <==> !s.timedOut && s.exitCode != Null && IsZero(s.exitCode))
      && s.timedOut == (s.status == "timeout")
  {
  }

  /** The last EXEC entry of the log is the one a later EXEC entry would replace. */
  lemma {:induction false} LastExecIsLast(es: seq<Value>)
    ensures LastExec(es).None? <==> forall i | 0 <= i < |es| :: !IsLevel(es[i], "EXEC")
    ensures LastExec(es).Some? ==> exists i | 0 <= i < |es| ::
      (es[i] == LastExec(es).value && forall j | i < j < |es| :: !IsLevel(es[j], "EXEC"))
    decreases |es|
  {
    if es == [] {
    } else if IsLevel(es[|es| - 1], "EXEC") {
      assert es[|es| - 1] == LastExec(es).value;
    } else {
      var init := es[..|es| - 1];
      LastExecIsLast(init);
      assert forall i | 0 <= i < |init| :: init[i] == es[i];
      if LastExec(init).Some? {
        var i :| 0 <= i < |init| && init[i] == LastExec(init).value && forall j | i < j < |init| :: !IsLevel(init[j], "EXEC");
        assert es[i] == LastExec(es).value;
      }
    }
  }

  /** The error summary is the message of the last ERROR entry, and there is none without one. */
  lemma {:induction false} LastErrorIsLast(es: seq<Value>)
    ensures ErrorEntries(es) == [] <==> forall i | 0 <= i < |es| :: !IsLevel(es[i], "ERROR")
    ensures ErrorEntries(es) != [] ==> exists i | 0 <= i < |es| ::
      (es[i] == ErrorEntries(es)[|ErrorEntries(es)| - 1] && IsLevel(es[i], "ERROR")
       && forall j | i < j < |es| :: !IsLevel(es[j], "ERROR"))
    decreases |es|
  {
    if es != [] {
      var init := es[..|es| - 1];
      LastErrorIsLast(init);
      assert forall i | 0 <= i < |init| :: init[i] == es[i];
      var e := es[|es| - 1];
      assert IsLevel(e, "EXEC") ==> !IsLevel(e, "ERROR");
    }
  }

  /** The exec entry's error count is the list length, or 1 or 0 by truthiness. */
  lemma ErrorsCountCases(v: Value)
    ensures v.Arr? ==> ErrorsCount(v) == |v.items|
    ensures !v.Arr? ==> (ErrorsCount(v) == 1 <==> Truthy(v)) && (ErrorsCount(v) == 0 <==> !Truthy(v))
  {
  }

  /** `parse_coder56_timeline`: the entries are read, then the exec entry and the errors are collected. */
  method ParseCoder56Timeline(file: Option<seq<string>>, parse: Parser) returns (s: TimelineSummary)
    ensures file.None? ==> s == MISSING
    ensures file.Some? ==> s == SummaryOf(ParsedLines(file.value, parse))
  {
    var entries := ReadJsonl(file, parse);
    if entries == [] {
      return MISSING;
    }
    var execEntry, errorEntries := CollectEntries(entries);
    var data := if execEntry.Some? then Sub(execEntry.value, "data") else Obj(map[]);
    var timedOut := false;
    var errorSummary := Null;
    if errorEntries != [] {
      errorSummary := Field(errorEntries[|errorEntries| - 1], "msg");
      timedOut := AnyTimesOut(errorEntries);
    }
    s := SummaryFrom(data, timedOut, errorSummary);
  }

  /** The loop over the entries: the last EXEC entry is kept and the ERROR entries are collected. */
  method CollectEntries(entries: seq<Value>) returns (execEntry: Option<Value>, errorEntries: seq<Value>)
    ensures execEntry == LastExec(entries) && errorEntries == ErrorEntries(entries)
  {
    execEntry := None;
    errorEntries := [];
    var i := 0;
    while i < |entries|
      invariant 0 <= i <= |entries|
      invariant execEntry == LastExec(entries[..i]) && errorEntries == ErrorEntries(entries[..i])
    {
      assert entries[..i + 1][..i] == entries[..i];
      var entry := entries[i];
      if IsLevel(entry, "EXEC") {
        execEntry := Some(entry);
      } else if IsLevel(entry, "ERROR") {
        errorEntries := errorEntries + [entry];
      }
      i := i + 1;
    }
    assert entries[..i] == entries;
  }

  /** The scan for a timeout message, stopping at the first. */
  method AnyTimesOut(errs: seq<Value>) returns (timedOut: bool)
    ensures timedOut <==> exists k | 0 <= k < |errs| :: TimesOut(errs[k])
  {
    timedOut := false;
    var j := 0;
    while j < |errs|
      invariant 0 <= j <= |errs|
      invariant forall k | 0 <= k < j :: !TimesOut(errs[k])
    {
      if TimesOut(errs[j]) {
        timedOut := true;
        break;
      }
      j := j + 1;
    }
  }
}
