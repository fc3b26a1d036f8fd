/**
 * The stage timings behind the coder56 result plots: when a run first found
 * the server, first scanned its port and first hit the login endpoint,
 * measured from the run's start, with the Flask login log as fallback, and
 * the per-stage series the box plots draw.
 *
 * Times are exact `real` seconds since the Unix epoch. The two text-to-number
 * conversions of the Python library are parameters: `IsoParser` stands for
 * `datetime.fromisoformat` and `FloatParser` for `float` on a string, `None`
 * meaning that the call raises.
 */
module PlotResults {
  import opened Wrappers
  import opened Text
  import opened Json
  import opened Jsonl
  import Actions = AnalyzeCoder56Actions

  // ---- parse_iso, to_float, to_bool, event_time ----

  /** A parsed ISO timestamp: its wall-clock reading and its UTC offset, if it names one. */
  datatype DateTime = DateTime(wall: real, offset: Option<real>)

  type IsoParser = string -> Option<DateTime>
  type FloatParser = string -> Option<real>

  /** The instant a timestamp denotes; one without an offset is read as UTC. */
  function Instant(dt: DateTime): real {
    dt.wall - OrElse(dt.offset, 0.0)
  }

  /** `parse_iso` on a string. */
  function ParseIso(ts: string, iso: IsoParser): Option<real> {
    if ts == [] then None
    else match iso(ts)
      case None => None
      case Some(dt) => Some(Instant(dt))
  }

  /**
   * `parse_iso` on a decoded value: whatever is not a string is either falsy
   * (`None` at once) or makes `fromisoformat` raise, which is caught.
   */
  function ParseIsoValue(v: Value, iso: IsoParser): Option<real> {
    match v
    case Str(s) => ParseIso(s, iso)
    case _ => None
  }

  /**
   * `parse_iso` gives a time exactly for a non-empty text that parses; a time
   * without an offset counts as UTC, so it is the same instant as that
   * reading marked "+00:00".
   */
  lemma ParseIsoMeans(ts: string, iso: IsoParser)
    ensures ParseIso(ts, iso).Some? <==> ts != [] && iso(ts).Some?
    ensures ts != [] && iso(ts).Some? && iso(ts).value.offset.None? ==>
      ParseIso(ts, iso) == Some(iso(ts).value.wall) == Some(Instant(DateTime(iso(ts).value.wall, Some(0.0))))
  {
  }

  /** `to_float`: nothing for a missing or empty field, or one `float` rejects. */
  function ToFloat(value: Option<string>, float: FloatParser): (r: Option<real>)
    ensures (value.None? || value == Some("")) ==> r.None?
    ensures value.Some? && value.value != [] ==> r == float(value.value)
  {
    match value
    case None => None
    case Some(s) => if s == [] then None else float(s)
  }

  /** `to_bool`: `str(value).lower() == "true"`; a missing field prints as "None". */
  predicate ToBool(value: Option<string>) {
    Lower(match value case None => "None" case Some(s) => s) == "true"
  }

  lemma LowerIs(c: char, l: char, u: char)
    requires 'a' <= l <= 'z' && u == (l as int - 32) as char
    ensures LowerChar(c) == l <==> c == l || c == u
  {
  }

  /** Exactly the four-letter spellings of "true" in any mix of cases are true; a missing field is false. */
  lemma ToBoolMeans(value: Option<string>)
    ensures value.None? ==> !ToBool(value)
    ensures value.Some? ==>
      (ToBool(value) <==> |value.value| == 4 && forall i | 0 <= i < 4 :: value.value[i] == "true"[i] || value.value[i] == "TRUE"[i])
  {
    if value.None? {
      assert Lower("None")[0] == 'n';
    } else {
      var s := value.value;
      if |s| == 4 {
        LowerIs(s[0], 't', 'T');
        LowerIs(s[1], 'r', 'R');
        LowerIs(s[2], 'u', 'U');
        LowerIs(s[3], 'e', 'E');
        if forall i | 0 <= i < 4 :: s[i] == "true"[i] || s[i] == "TRUE"[i] {
          assert Lower(s) == "true";
        }
      }
    }
  }

  /**
   * `event_time`: the event's millisecond `timestamp` in seconds; `float`
   * also takes a boolean (as 0 or 1) and a numeric string, and anything
   * else raises, which is caught.
   */
  function EventTime(event: Value, float: FloatParser): Option<real> {
    match Get(event, "timestamp")
    case Some(Num(n)) => Some(n as real / 1000.0)
    case Some(Bool(b)) => Some(if b then 0.001 else 0.0)
    case Some(Str(s)) =>
      (match float(s)
       case Some(x) => Some(x / 1000.0)
       case None => None)
    case _ => None
  }

  /**
   * An event has a time exactly when its `timestamp` is a number, a boolean
   * or a text `float` reads; a number of milliseconds becomes that many
   * thousandths of a second.
   */
  lemma EventTimeMeans(event: Value, float: FloatParser)
    ensures EventTime(event, float).Some? <==>
      match Get(event, "timestamp")
      case Some(Num(_)) => true
      case Some(Bool(_)) => true
      case Some(Str(s)) => float(s).Some?
      case _ => false
    ensures Get(event, "timestamp").Some? && Get(event, "timestamp").value.Num? ==>
      EventTime(event, float).value * 1000.0 == Get(event, "timestamp").value.n as real
  {
  }

  // ---- find_stage_times ----

  /** `extract_tool_command`, kept only when it is a non-empty string. */
  function CommandOf(event: Value): Option<string> {
    if GetOr(event, "type", Null) != Str("tool_use") then None
    else match Get(Sub(Sub(Sub(event, "part"), "state"), "input"), "command")
      case Some(Str(cmd)) => if cmd != [] then Some(cmd) else None
      case _ => None
  }

  /** Only a `tool_use` event has a command, and then it is the non-empty text of its input's `command` field. */
  lemma CommandOfMeans(event: Value)
    ensures CommandOf(event).Some? ==> GetOr(event, "type", Null) == Str("tool_use") && CommandOf(event).value != []
    ensures CommandOf(event).Some? ==>
      Get(Sub(Sub(Sub(event, "part"), "state"), "input"), "command") == Some(Str(CommandOf(event).value))
    ensures GetOr(event, "type", Null) == Str("tool_use") ==>
      forall cmd | Get(Sub(Sub(Sub(event, "part"), "state"), "input"), "command") == Some(Str(cmd)) && cmd != [] ::
        CommandOf(event) == Some(cmd)
  {
  }

  /** `state.get("output", "") or ""`. */
  function OutputOf(event: Value): string {
    StrOr(Sub(Sub(event, "part"), "state"), "output", "")
  }

  /**
   * The raw pattern `r"\\bhttps?://"` asks, ignoring case, for a literal
   * backslash and a `b` before the scheme, not for a word boundary.
   */
  predicate HttpUrl(cmd: string) {
    Contains(Lower(cmd), "\\bhttp://") || Contains(Lower(cmd), "\\bhttps://")
  }

  /** As written, a command passes the URL test only if it holds a backslash. */
  lemma UrlNeedsBackslash(cmd: string)
    requires HttpUrl(cmd)
    ensures '\\' in cmd
  {
    var l := Lower(cmd);
    if Contains(l, "\\bhttp://") {
      ContainsNeedsChar(l, "\\bhttp://");
    } else {
      ContainsNeedsChar(l, "\\bhttps://");
    }
    var k :| 0 <= k < |l| && l[k] == '\\';
    assert cmd[k] == '\\';
  }

  /** The URL test with the single-backslash pattern `\bhttps?://`, ignoring case. */
  predicate HttpUrlIntended(cmd: string) {
    var l := Lower(cmd);
    exists i | 0 <= i <= |l| :: WordBoundary(l, i) && (SubAt(l, "http://", i) || SubAt(l, "https://", i))
  }

  /** A URL at the start of a command or after a non-word character passes the intended test. */
  lemma UrlFound(a: string, scheme: string, b: string)
    requires scheme == "http://" || scheme == "https://"
    requires a == [] || !IsWordChar(a[|a| - 1])
    ensures HttpUrlIntended(a + scheme + b)
  {
    var cmd := a + scheme + b;
    var l := Lower(cmd);
    SubAtMiddle(a, scheme, b);
    forall k | 0 <= k < |scheme|
      ensures l[|a| + k] == scheme[k]
    {
      assert cmd[|a| + k] == scheme[k];
    }
    assert l[|a|..|a| + |scheme|] == scheme;
    assert l[|a|] == 'h';
    if a != [] {
      assert cmd[|a| - 1] == a[|a| - 1];
    }
    assert WordBoundary(l, |a|);
  }

  /** A URL after a non-word character, in a command without a backslash, fails the URL test as written and passes it as intended. */
  lemma UrlMissed(a: string, b: string)
    requires a == [] || !IsWordChar(a[|a| - 1])
    requires '\\' !in a && '\\' !in b
    ensures !HttpUrl(a + "http://" + b)
    ensures HttpUrlIntended(a + "http://" + b)
  {
    var cmd := a + "http://" + b;
    forall k | 0 <= k < |cmd|
      ensures cmd[k] != '\\'
    {
      if k < |a| {
        assert cmd[k] == a[k];
      } else if |a| + 7 <= k {
        assert cmd[k] == b[k - |a| - 7];
      }
    }
    if HttpUrl(cmd) {
      UrlNeedsBackslash(cmd);
      assert false;
    }
    UrlFound(a, "http://", b);
  }

  datatype Stage = ServerFound | PortFound | EndpointHit

  /** What the stages look for: the server's address and the endpoint path. */
  datatype Targets = Targets(serverIp: string, endpoint: string)

  /** Whether a command (and the output it produced) reaches a stage. */
  predicate Reaches(stage: Stage, cmd: string, output: string, t: Targets) {
    match stage
    case ServerFound => Contains(cmd, "nmap") && Contains(output, t.serverIp)
    case PortFound => Contains(cmd, "nmap") && Contains(cmd, "-p") && Contains(cmd, t.serverIp)
    case EndpointHit => HttpUrl(cmd) && Contains(Lower(cmd), Lower(t.endpoint)) && Contains(cmd, t.serverIp)
  }

  /** The seconds from `start` at which `event` reaches `stage`; nothing for an event without a command or a time. */
  function Delta(stage: Stage, event: Value, start: real, t: Targets, float: FloatParser): Option<real> {
    match CommandOf(event)
    case None => None
    case Some(cmd) =>
      match EventTime(event, float)
      case None => None
      case Some(time) => if Reaches(stage, cmd, OutputOf(event), t) then Some(time - start) else None
  }

  function Deltas(stage: Stage, events: seq<Value>, start: real, t: Targets, float: FloatParser): (ds: seq<Option<real>>)
    ensures |ds| == |events| && forall i | 0 <= i < |events| :: ds[i] == Delta(stage, events[i], start, t, float)
  {
    seq(|events|, i requires 0 <= i < |events| => Delta(stage, events[i], start, t, float))
  }

  /** The first value present. */
  function First(xs: seq<Option<real>>): Option<real>
    decreases |xs|
  {
    if xs == [] then None else if xs[0].Some? then xs[0] else First(xs[1..])
  }

  /** The position of the first value present, or `|xs|` when there is none. */
  function FirstIndex(xs: seq<Option<real>>): (i: nat)
    ensures i <= |xs| && (forall j | 0 <= j < i :: xs[j].None?) && (i < |xs| ==> xs[i].Some?)
    decreases |xs|
  {
    if xs == [] then 0 else if xs[0].Some? then 0 else 1 + FirstIndex(xs[1..])
  }

  /** `First` is the value at the earliest position holding one, and nothing when no position does. */
  lemma {:induction false} FirstMeans(xs: seq<Option<real>>)
    ensures First(xs) == if FirstIndex(xs) < |xs| then xs[FirstIndex(xs)] else None
    ensures First(xs).None? <==> forall j | 0 <= j < |xs| :: xs[j].None?
    decreases |xs|
  {
    if xs != [] && xs[0].None? {
      FirstMeans(xs[1..]);
      assert forall j | 1 <= j < |xs| :: xs[j] == xs[1..][j - 1];
    }
  }

  lemma {:induction false} FirstAppend(xs: seq<Option<real>>, ys: seq<Option<real>>)
    ensures First(xs + ys) == if First(xs).Some? then First(xs) else First(ys)
    decreases |xs|
  {
    if xs == [] {
      assert xs + ys == ys;
    } else {
      assert (xs + ys)[1..] == xs[1..] + ys;
      FirstAppend(xs[1..], ys);
    }
  }

  /** The three stage times; each is unset until some event reaches it. */
  datatype Stages = Stages(serverFound: Option<real>, portFound: Option<real>, endpointHit: Option<real>)

  function Get3(s: Stages, stage: Stage): Option<real> {
    match stage
    case ServerFound => s.serverFound
    case PortFound => s.portFound
    case EndpointHit => s.endpointHit
  }

  /** Each stage is the time of the first event, in list order, that reaches it. */
  function StageTimes(start: real, events: seq<Value>, t: Targets, float: FloatParser): (s: Stages)
    ensures forall stage :: Get3(s, stage) == First(Deltas(stage, events, start, t, float))
  {
    Stages(First(Deltas(ServerFound, events, start, t, float)),
           First(Deltas(PortFound, events, start, t, float)),
           First(Deltas(EndpointHit, events, start, t, float)))
  }

  /**
   * A stage's time is set by one event that reaches it, and no earlier event
   * reaches it; it stays unset only when no event does.
   */
  lemma StageIsFirst(start: real, events: seq<Value>, t: Targets, float: FloatParser, stage: Stage)
    ensures var d := Get3(StageTimes(start, events, t, float), stage);
      var i := FirstIndex(Deltas(stage, events, start, t, float));
      && (d.Some? ==> i < |events| && d == Delta(stage, events[i], start, t, float))
      && (forall j | 0 <= j < i :: Delta(stage, events[j], start, t, float).None?)
      && (d.None? <==> forall j | 0 <= j < |events| :: Delta(stage, events[j], start, t, float).None?)
  {
    FirstMeans(Deltas(stage, events, start, t, float));
  }

  lemma DeltasAppend(stage: Stage, a: seq<Value>, b: seq<Value>, start: real, t: Targets, float: FloatParser)
    ensures Deltas(stage, a + b, start, t, float) == Deltas(stage, a, start, t, float) + Deltas(stage, b, start, t, float)
  {
  }

  /** An event without a non-empty command or a readable time changes no stage, wherever it falls. */
  lemma SkipUntimed(start: real, a: seq<Value>, e: Value, b: seq<Value>, t: Targets, float: FloatParser)
    requires CommandOf(e).None? || EventTime(e, float).None?
    ensures StageTimes(start, a + [e] + b, t, float) == StageTimes(start, a + b, t, float)
  {
    forall stage
      ensures First(Deltas(stage, a + [e] + b, start, t, float)) == First(Deltas(stage, a + b, start, t, float))
    {
      var da, db := Deltas(stage, a, start, t, float), Deltas(stage, b, start, t, float);
      DeltasAppend(stage, a + [e], b, start, t, float);
      DeltasAppend(stage, a, [e], start, t, float);
      DeltasAppend(stage, a, b, start, t, float);
      assert Deltas(stage, [e], start, t, float) == [None];
      FirstAppend(da + [None], db);
      FirstAppend(da, [None]);
      FirstAppend(da, db);
    }
    assert Get3(StageTimes(start, a + [e] + b, t, float), ServerFound) == Get3(StageTimes(start, a + b, t, float), ServerFound);
    assert Get3(StageTimes(start, a + [e] + b, t, float), PortFound) == Get3(StageTimes(start, a + b, t, float), PortFound);
    assert Get3(StageTimes(start, a + [e] + b, t, float), EndpointHit) == Get3(StageTimes(start, a + b, t, float), EndpointHit);
  }

  /** With the doubled backslash, an event reaches the endpoint stage only with a backslash in its command. */
  lemma EndpointNeedsBackslash(event: Value, start: real, t: Targets, float: FloatParser)
    requires Delta(EndpointHit, event, start, t, float).Some?
    ensures '\\' in CommandOf(event).value
  {
    var cmd := CommandOf(event).value;
    var l := Lower(cmd);
    if Contains(l, "\\bhttp://") {
      ContainsNeedsChar(l, "\\bhttp://");
    } else {
      ContainsNeedsChar(l, "\\bhttps://");
    }
    var k :| 0 <= k < |l| && l[k] == '\\';
    assert cmd[k] == '\\';
  }

  /** So when no command holds a backslash, the events never set the endpoint stage. */
  lemma NoBackslashNoEndpoint(start: real, events: seq<Value>, t: Targets, float: FloatParser)
    requires forall i | 0 <= i < |events| && CommandOf(events[i]).Some? :: '\\' !in CommandOf(events[i]).value
    ensures StageTimes(start, events, t, float).endpointHit.None?
  {
    forall j | 0 <= j < |events|
      ensures Delta(EndpointHit, events[j], start, t, float).None?
    {
      if Delta(EndpointHit, events[j], start, t, float).Some? {
        EndpointNeedsBackslash(events[j], start, t, float);
      }
    }
    FirstMeans(Deltas(EndpointHit, events, start, t, float));
  }

  lemma StagesStep(start: real, events: seq<Value>, i: nat, t: Targets, float: FloatParser)
    requires i < |events|
    ensures forall stage :: (Get3(StageTimes(start, events[..i + 1], t, float), stage) ==
      var before := Get3(StageTimes(start, events[..i], t, float), stage);
      if before.Some? then before else Delta(stage, events[i], start, t, float))
  {
    assert events[..i + 1] == events[..i] + [events[i]];
    forall stage
      ensures First(Deltas(stage, events[..i + 1], start, t, float)) ==
        var before := First(Deltas(stage, events[..i], start, t, float));
        if before.Some? then before else Delta(stage, events[i], start, t, float)
    {
      DeltasAppend(stage, events[..i], [events[i]], start, t, float);
      FirstAppend(Deltas(stage, events[..i], start, t, float), Deltas(stage, [events[i]], start, t, float));
    }
  }

  /** `find_stage_times`; `port` is accepted and never used. */
  method FindStageTimes(start: real, events: seq<Value>, serverIp: string, port: int, endpoint: string, float: FloatParser)
    returns (stages: Stages)
    ensures stages == StageTimes(start, events, Targets(serverIp, endpoint), float)
  {
    ghost var t := Targets(serverIp, endpoint);
    stages := Stages(None, None, None);
    var i := 0;
    while i < |events|
      invariant 0 <= i <= |events|
      invariant stages == StageTimes(start, events[..i], t, float)
    {
      ghost var prev := stages;
      var event := events[i];
      var cmd := CommandOf(event);
      var evtTime := EventTime(event, float);
      if cmd.Some? && evtTime.Some? {
        var delta := evtTime.value - start;
        var output := OutputOf(event);
        if Contains(cmd.value, "nmap") {
          if stages.serverFound.None? && Contains(output, serverIp) {
            stages := stages.(serverFound := Some(delta));
          }
          if stages.portFound.None? && Contains(cmd.value, "-p") && Contains(cmd.value, serverIp) {
            stages := stages.(portFound := Some(delta));
          }
        }
        if stages.endpointHit.None? && HttpUrl(cmd.value) && Contains(Lower(cmd.value), Lower(endpoint))
          && Contains(cmd.value, serverIp)
        {
          stages := stages.(endpointHit := Some(delta));
        }
      }
      StagesAfter(prev, stages, start, events, i, t, float);
      i := i + 1;
    }
    assert events[..i] == events;
  }

  /** One event's step: each stage already found stays, each other takes the event's time if it reaches it. */
  lemma StagesAfter(prev: Stages, stages: Stages, start: real, events: seq<Value>, i: nat, t: Targets, float: FloatParser)
    requires i < |events| && prev == StageTimes(start, events[..i], t, float)
    requires stages.serverFound == if prev.serverFound.Some? then prev.serverFound else Delta(ServerFound, events[i], start, t, float)
    requires stages.portFound == if prev.portFound.Some? then prev.portFound else Delta(PortFound, events[i], start, t, float)
    requires stages.endpointHit == if prev.endpointHit.Some? then prev.endpointHit else Delta(EndpointHit, events[i], start, t, float)
    ensures stages == StageTimes(start, events[..i + 1], t, float)
  {
    StagesStep(start, events, i, t, float);
    assert Get3(stages, ServerFound) == Get3(StageTimes(start, events[..i + 1], t, float), ServerFound);
    assert Get3(stages, PortFound) == Get3(StageTimes(start, events[..i + 1], t, float), PortFound);
    assert Get3(stages, EndpointHit) == Get3(StageTimes(start, events[..i + 1], t, float), EndpointHit);
  }

  // ---- parse_flask_log ----

  /** The time of a login attempt, when its `timestamp` parses. */
  function FlaskStamp(entry: Value, iso: IsoParser): Option<real> {
    ParseIsoValue(GetOr(entry, "timestamp", Str("")), iso)
  }

  /** `entry.get("success") is True`. */
  predicate FlaskSuccess(entry: Value) {
    GetOr(entry, "success", Null) == Bool(true)
  }

  /** The times of the entries with a readable time, and of those among them that succeeded. */
  function Stamps(entries: seq<Value>, iso: IsoParser, onlySuccess: bool): seq<real>
    decreases |entries|
  {
    if entries == [] then []
    else
      var e := entries[|entries| - 1];
      Stamps(entries[..|entries| - 1], iso, onlySuccess)
      + (if FlaskStamp(e, iso).Some? && (onlySuccess ==> FlaskSuccess(e)) then [FlaskStamp(e, iso).value] else [])
  }

  /** The earlier of a running minimum and one more time. */
  function MinWith(m: Option<real>, x: real): Option<real> {
    if m.None? || x < m.value then Some(x) else m
  }

  /** The smallest time, nothing for none. */
  function MinOf(xs: seq<real>): Option<real>
    decreases |xs|
  {
    if xs == [] then None else MinWith(MinOf(xs[..|xs| - 1]), xs[|xs| - 1])
  }

  /** `MinOf` is the least of the times: present in them and no later than any. */
  lemma {:induction false} MinOfMeans(xs: seq<real>)
    ensures MinOf(xs).None? <==> xs == []
    ensures MinOf(xs).Some? ==> MinOf(xs).value in xs && forall x | x in xs :: MinOf(xs).value <= x
    decreases |xs|
  {
    if xs != [] {
      var init := xs[..|xs| - 1];
      MinOfMeans(init);
      SplitLast(xs);
    }
  }

  /** `parse_flask_log`: the earliest attempt and the earliest successful one; nothing for a missing file. */
  function FlaskTimes(file: Option<seq<string>>, parse: Parser, iso: IsoParser): (Option<real>, Option<real>) {
    match file
    case None => (None, None)
    case Some(lines) =>
      var es := ParsedLines(lines, parse);
      (MinOf(Stamps(es, iso, false)), MinOf(Stamps(es, iso, true)))
  }

  /**
   * The two Flask times are the least of the readable attempt times and the
   * least of the readable successful ones, each absent exactly when there are
   * no such times; a missing file gives neither.
   */
  lemma FlaskTimesMeans(file: Option<seq<string>>, parse: Parser, iso: IsoParser)
    ensures file.None? ==> FlaskTimes(file, parse, iso) == (None, None)
    ensures file.Some? ==>
      var es := ParsedLines(file.value, parse);
      var (first, success) := FlaskTimes(file, parse, iso);
      && (first.None? <==> Stamps(es, iso, false) == [])
      && (first.Some? ==> first.value in Stamps(es, iso, false) && forall x | x in Stamps(es, iso, false) :: first.value <= x)
      && (success.None? <==> Stamps(es, iso, true) == [])
      && (success.Some? ==> success.value in Stamps(es, iso, true) && forall x | x in Stamps(es, iso, true) :: success.value <= x)
  {
    if file.Some? {
      var es := ParsedLines(file.value, parse);
      MinOfMeans(Stamps(es, iso, false));
      MinOfMeans(Stamps(es, iso, true));
    }
  }

  /** The earliest success is never before the earliest attempt, and there is none without an attempt. */
  lemma SuccessAfterFirst(file: Option<seq<string>>, parse: Parser, iso: IsoParser)
    ensures var (first, success) := FlaskTimes(file, parse, iso);
      (success.Some? ==> first.Some? && first.value <= success.value)
  {
    if file.Some? {
      var es := ParsedLines(file.value, parse);
      SuccessAmongAll(es, iso);
      MinOfMeans(Stamps(es, iso, false));
      MinOfMeans(Stamps(es, iso, true));
    }
  }

  lemma {:induction false} SuccessAmongAll(es: seq<Value>, iso: IsoParser)
    ensures forall x | x in Stamps(es, iso, true) :: x in Stamps(es, iso, false)
    decreases |es|
  {
    if es != [] {
      SuccessAmongAll(es[..|es| - 1], iso);
    }
  }

  lemma FlaskStep(lines: seq<string>, i: nat, parse: Parser, iso: IsoParser, onlySuccess: bool)
    requires i < |lines|
    ensures var before := Stamps(ParsedLines(lines[..i], parse), iso, onlySuccess);
      Stamps(ParsedLines(lines[..i + 1], parse), iso, onlySuccess) ==
        match LineEntry(lines[i], parse)
        case None => before
        case Some(e) => before + (if FlaskStamp(e, iso).Some? && (onlySuccess ==> FlaskSuccess(e)) then [FlaskStamp(e, iso).value] else [])
  {
    assert lines[..i + 1][..i] == lines[..i];
    var es := ParsedLines(lines[..i], parse);
    match LineEntry(lines[i], parse)
    case None =>
    case Some(e) =>
      assert ParsedLines(lines[..i + 1], parse) == es + [e];
      assert (es + [e])[..|es|] == es;
  }

  lemma MinStep(xs: seq<real>, x: Option<real>)
    ensures MinOf(xs + (if x.Some? then [x.value] else [])) == if x.Some? then MinWith(MinOf(xs), x.value) else MinOf(xs)
  {
    if x.Some? {
      assert (xs + [x.value])[..|xs|] == xs;
    } else {
      assert xs + [] == xs;
    }
  }

  /** One more line moves the running minimum by the time it brings, if any. */
  lemma FlaskIter(lines: seq<string>, i: nat, parse: Parser, iso: IsoParser, onlySuccess: bool, ts: Option<real>)
    requires i < |lines|
    requires ts == match LineEntry(lines[i], parse)
      case None => None
      case Some(e) => if FlaskStamp(e, iso).Some? && (onlySuccess ==> FlaskSuccess(e)) then FlaskStamp(e, iso) else None
    ensures var before := MinOf(Stamps(ParsedLines(lines[..i], parse), iso, onlySuccess));
      MinOf(Stamps(ParsedLines(lines[..i + 1], parse), iso, onlySuccess)) == if ts.Some? then MinWith(before, ts.value) else before
  {
    FlaskStep(lines, i, parse, iso, onlySuccess);
    var before := Stamps(ParsedLines(lines[..i], parse), iso, onlySuccess);
    MinStep(before, ts);
    assert Stamps(ParsedLines(lines[..i + 1], parse), iso, onlySuccess) == before + (if ts.Some? then [ts.value] else []);
  }

  /** The line loop of `parse_flask_log`. */
  method ParseFlaskLog(file: Option<seq<string>>, parse: Parser, iso: IsoParser) returns (first: Option<real>, success: Option<real>)
    ensures (first, success) == FlaskTimes(file, parse, iso)
  {
    if file.None? {
      return None, None;
    }
    var lines := file.value;
    first, success := None, None;
    var i := 0;
    while i < |lines|
      invariant 0 <= i <= |lines|
      invariant first == MinOf(Stamps(ParsedLines(lines[..i], parse), iso, false))
      invariant success == MinOf(Stamps(ParsedLines(lines[..i], parse), iso, true))
    {
      var entry := LineEntry(lines[i], parse);
      var ts := if entry.Some? then FlaskStamp(entry.value, iso) else None;
      var won := entry.Some? && FlaskSuccess(entry.value);
      FlaskIter(lines, i, parse, iso, false, ts);
      FlaskIter(lines, i, parse, iso, true, if won then ts else None);
      if ts.Some? {
        first := MinWith(first, ts.value);
        if won {
          success := MinWith(success, ts.value);
        }
      }
      i := i + 1;
    }
    assert lines[..i] == lines;
  }

  // ---- collect_stage_data ----

  /** What a run directory holds: the responder timeline, the directory listing with contents, and the Flask log. */
  datatype RunLogs = RunLogs(timeline: Option<seq<string>>, listing: Option<seq<(string, seq<string>)>>, flask: Option<seq<string>>)

  /** `find_init_time`: the time of the first `INIT` entry, which may itself be unreadable. */
  function InitTime(file: Option<seq<string>>, parse: Parser, iso: IsoParser): Option<real> {
    match file
    case None => None
    case Some(lines) => FirstInit(ParsedLines(lines, parse), iso)
  }

  function FirstInit(es: seq<Value>, iso: IsoParser): Option<real>
    decreases |es|
  {
    if es == [] then None
    else if GetOr(es[0], "level", Null) == Str("INIT") then ParseIsoValue(GetOr(es[0], "ts", Null), iso)
    else FirstInit(es[1..], iso)
  }

  /** The position of the first `INIT` entry, or `|es|` when there is none. */
  function InitIndex(es: seq<Value>): (i: nat)
    ensures i <= |es|
    ensures forall j | 0 <= j < i :: GetOr(es[j], "level", Null) != Str("INIT")
    ensures i < |es| ==> GetOr(es[i], "level", Null) == Str("INIT")
    decreases |es|
  {
    if es == [] then 0 else if GetOr(es[0], "level", Null) == Str("INIT") then 0 else 1 + InitIndex(es[1..])
  }

  /**
   * `find_init_time` reads the first `INIT` entry only: the start is that
   * entry's `ts` when it parses, and nothing when it does not or when there
   * is no `INIT` entry; later `INIT` entries are never consulted.
   */
  lemma {:induction false} FirstInitMeans(es: seq<Value>, iso: IsoParser)
    ensures FirstInit(es, iso) ==
      if InitIndex(es) < |es| then ParseIsoValue(GetOr(es[InitIndex(es)], "ts", Null), iso) else None
    decreases |es|
  {
    if es != [] && GetOr(es[0], "level", Null) != Str("INIT") {
      FirstInitMeans(es[1..], iso);
      if InitIndex(es[1..]) < |es[1..]| {
        assert es[1..][InitIndex(es[1..])] == es[InitIndex(es)];
      }
    }
  }

  /** The events of the stdout logs, file after file in listing order. */
  function FilesEvents(files: seq<(string, seq<string>)>, parse: Parser): seq<Value>
    decreases |files|
  {
    if files == [] then [] else FilesEvents(files[..|files| - 1], parse) + ParsedLines(files[|files| - 1].1, parse)
  }

  function RunEvents(listing: Option<seq<(string, seq<string>)>>, parse: Parser): seq<Value> {
    match listing
    case None => []
    case Some(files) => FilesEvents(Actions.StdoutFiles(files), parse)
  }

  /** One enriched run: its stage times, its time to success, whether it found the password, and its id. */
  datatype Enriched = Enriched(stages: Stages, timeToSuccess: Option<real>, passwordFound: bool, runId: string)

  /** The conversions the run records need. */
  datatype Readers = Readers(parse: Parser, iso: IsoParser, float: FloatParser)

  /** `row.get(key)`. */
  function Field(row: Actions.Row, key: string): Option<string> {
    if key in row then Some(row[key]) else None
  }

  /**
   * The record of one run from its event stage times and its Flask times:
   * the endpoint stage falls back to the first Flask attempt when no event
   * reached it, and the time to success is the first successful attempt,
   * else the CSV's own column.
   */
  function Enrich(row: Actions.Row, id: string, start: real, stages: Stages, flask: (Option<real>, Option<real>), float: FloatParser)
    : (e: Enriched)
    ensures e.runId == id && e.passwordFound == ToBool(Field(row, "password_found"))
    ensures e.stages.serverFound == stages.serverFound && e.stages.portFound == stages.portFound
    ensures stages.endpointHit.Some? ==> e.stages.endpointHit == stages.endpointHit
    ensures stages.endpointHit.None? ==> e.stages.endpointHit == if flask.0.Some? then Some(flask.0.value - start) else None
    ensures flask.1.Some? ==> e.timeToSuccess == Some(flask.1.value - start)
    ensures flask.1.None? ==> e.timeToSuccess == ToFloat(Field(row, "time_to_success_seconds"), float)
  {
    var endpoint := if stages.endpointHit.None? && flask.0.Some? then Some(flask.0.value - start) else stages.endpointHit;
    var success := if flask.1.Some? then Some(flask.1.value - start) else ToFloat(Field(row, "time_to_success_seconds"), float);
    Enriched(stages.(endpointHit := endpoint), success, ToBool(Field(row, "password_found")), id)
  }

  /** The record of a run with id `id` that started at `start`. */
  function RunRecord(row: Actions.Row, id: string, start: real, logs: RunLogs, t: Targets, r: Readers): Enriched {
    Enrich(row, id, start, StageTimes(start, RunEvents(logs.listing, r.parse), t, r.float), FlaskTimes(logs.flask, r.parse, r.iso), r.float)
  }

  /** A row's record; none without a run id or a start time. */
  function RowRecord(row: Actions.Row, runs: string -> RunLogs, t: Targets, r: Readers): Option<Enriched> {
    match Actions.RunIdOf(row)
    case None => None
    case Some(id) =>
      match InitTime(runs(id).timeline, r.parse, r.iso)
      case None => None
      case Some(start) => Some(RunRecord(row, id, start, runs(id), t, r))
  }

  function Records(rows: seq<Actions.Row>, runs: string -> RunLogs, t: Targets, r: Readers): seq<Enriched>
    decreases |rows|
  {
    if rows == [] then []
    else
      var e := RowRecord(rows[|rows| - 1], runs, t, r);
      Records(rows[..|rows| - 1], runs, t, r) + (if e.Some? then [e.value] else [])
  }

  /** The facts `RecordsMeans` states, for any way `f` of turning a row into an optional record. */
  ghost predicate KeptFrom<T, U>(xs: seq<T>, f: T -> Option<U>, ys: seq<U>) {
    && |ys| <= |xs|
    && (forall y | y in ys :: exists i | 0 <= i < |xs| :: f(xs[i]) == Some(y))
    && (forall i | 0 <= i < |xs| && f(xs[i]).Some? :: f(xs[i]).value in ys)
  }

  /** Keeping one more row's record, if it has one, keeps the facts. */
  lemma KeptStep<T, U>(xs: seq<T>, x: T, f: T -> Option<U>, ys: seq<U>)
    requires KeptFrom(xs, f, ys)
    ensures KeptFrom(xs + [x], f, ys + (if f(x).Some? then [f(x).value] else []))
  {
    var xs', ys' := xs + [x], ys + (if f(x).Some? then [f(x).value] else []);
    assert forall i | 0 <= i < |xs| :: xs'[i] == xs[i];
    assert xs'[|xs|] == x;
  }

  /**
   * The records are exactly the records of the rows that have one: each
   * comes from some row, every row with a run id and a start time gives one,
   * and there are never more records than rows.
   */
  lemma {:induction false} RecordsMeans(rows: seq<Actions.Row>, runs: string -> RunLogs, t: Targets, r: Readers)
    ensures KeptFrom(rows, row => RowRecord(row, runs, t, r), Records(rows, runs, t, r))
    decreases |rows|
  {
    if rows != [] {
      var init := rows[..|rows| - 1];
      RecordsMeans(init, runs, t, r);
      KeptStep(init, rows[|rows| - 1], row => RowRecord(row, runs, t, r), Records(init, runs, t, r));
      SplitLast(rows);
    }
  }

  /** Without a backslash in any command, a run's endpoint time is its first Flask attempt's. */
  lemma EndpointFromFlask(row: Actions.Row, id: string, start: real, events: seq<Value>, flask: (Option<real>, Option<real>),
                          t: Targets, float: FloatParser)
    requires forall i | 0 <= i < |events| && CommandOf(events[i]).Some? :: '\\' !in CommandOf(events[i]).value
    ensures Enrich(row, id, start, StageTimes(start, events, t, float), flask, float).stages.endpointHit ==
      if flask.0.Some? then Some(flask.0.value - start) else None
  {
    NoBackslashNoEndpoint(start, events, t, float);
  }

  /** One row of `collect_stage_data`. */
  method CollectRow(row: Actions.Row, runs: string -> RunLogs, serverIp: string, port: int, endpoint: string, r: Readers)
    returns (e: Option<Enriched>)
    ensures e == RowRecord(row, runs, Targets(serverIp, endpoint), r)
  {
    var runId := Actions.RunIdOf(row);
    if runId.None? {
      return None;
    }
    var logs := runs(runId.value);
    var startTime := InitTime(logs.timeline, r.parse, r.iso);
    if startTime.None? {
      return None;
    }
    var record := CollectRun(row, runId.value, startTime.value, logs, serverIp, port, endpoint, r);
    return Some(record);
  }

  /** The body of `collect_stage_data` for a run with a start time. */
  method CollectRun(row: Actions.Row, id: string, start: real, logs: RunLogs, serverIp: string, port: int, endpoint: string,
                    r: Readers) returns (e: Enriched)
    ensures e == RunRecord(row, id, start, logs, Targets(serverIp, endpoint), r)
  {
    var events := RunEvents(logs.listing, r.parse);
    var stages := FindStageTimes(start, events, serverIp, port, endpoint, r.float);
    var flaskFirst, flaskSuccess := ParseFlaskLog(logs.flask, r.parse, r.iso);
    e := Enrich(row, id, start, stages, (flaskFirst, flaskSuccess), r.float);
  }

  /** `collect_stage_data`. */
  method CollectStageData(rows: seq<Actions.Row>, runs: string -> RunLogs, serverIp: string, port: int, endpoint: string, r: Readers)
    returns (enriched: seq<Enriched>)
    ensures enriched == Records(rows, runs, Targets(serverIp, endpoint), r)
  {
    enriched := [];
    var i := 0;
    while i < |rows|
      invariant 0 <= i <= |rows|
      invariant enriched == Records(rows[..i], runs, Targets(serverIp, endpoint), r)
    {
      assert rows[..i + 1][..i] == rows[..i];
      var e := CollectRow(rows[i], runs, serverIp, port, endpoint, r);
      if e.Some? {
        enriched := enriched + [e.value];
      } else {
        assert enriched + [] == enriched;
      }
      i := i + 1;
    }
    assert rows[..i] == rows;
  }

  // ---- build_series ----

  /** The values present, in order. */
  function Present(xs: seq<Option<real>>): seq<real>
    decreases |xs|
  {
    if xs == [] then [] else Present(xs[..|xs| - 1]) + (if xs[|xs| - 1].Some? then [xs[|xs| - 1].value] else [])
  }

  /** `Present` keeps exactly the values there are, each where it stood: it drops nothing but the gaps. */
  lemma {:induction false} PresentMeans(xs: seq<Option<real>>)
    ensures forall x :: x in Present(xs) <==> Some(x) in xs
    ensures |Present(xs)| <= |xs|
    ensures (forall i | 0 <= i < |xs| :: xs[i].Some?) ==> |Present(xs)| == |xs|
    decreases |xs|
  {
    if xs != [] {
      var init := xs[..|xs| - 1];
      PresentMeans(init);
      SplitLast(xs);
      assert forall i | 0 <= i < |init| :: init[i] == xs[i];
    }
  }

  lemma {:induction false} PresentAppend(xs: seq<Option<real>>, ys: seq<Option<real>>)
    ensures Present(xs + ys) == Present(xs) + Present(ys)
    decreases |ys|
  {
    if ys == [] {
      assert xs + ys == xs;
    } else {
      var init := ys[..|ys| - 1];
      assert (xs + ys)[..|xs + ys| - 1] == xs + init;
      PresentAppend(xs, init);
    }
  }

  /** The four box-plot series. */
  datatype Series = Series(serverFound: seq<real>, portFound: seq<real>, endpointHit: seq<real>, success: seq<real>)

  function Column(items: seq<Enriched>, k: nat): (c: seq<Option<real>>)
    requires k < 4
    ensures |c| == |items|
  {
    seq(|items|, i requires 0 <= i < |items| =>
      if k == 0 then items[i].stages.serverFound
      else if k == 1 then items[i].stages.portFound
      else if k == 2 then items[i].stages.endpointHit
      else items[i].timeToSuccess)
  }

  /** Each series holds that stage's times over the items, in item order, skipping the items without one. */
  function SeriesOf(items: seq<Enriched>): Series {
    Series(Present(Column(items, 0)), Present(Column(items, 1)), Present(Column(items, 2)), Present(Column(items, 3)))
  }

  /** `winning`: the runs that found the password. */
  function Winning(items: seq<Enriched>): (w: seq<Enriched>)
    ensures forall e | e in w :: e in items && e.passwordFound
    ensures forall e | e in items && e.passwordFound :: e in w
    decreases |items|
  {
    if items == [] then [] else (if items[0].passwordFound then [items[0]] else []) + Winning(items[1..])
  }

  lemma ColumnStep(items: seq<Enriched>, i: nat, k: nat)
    requires i < |items| && k < 4
    ensures Column(items[..i + 1], k) == Column(items[..i], k) + [Column(items, k)[i]]
  {
  }

  lemma SeriesStep(items: seq<Enriched>, i: nat, k: nat)
    requires i < |items| && k < 4
    ensures Present(Column(items[..i + 1], k)) ==
      Present(Column(items[..i], k)) + (if Column(items, k)[i].Some? then [Column(items, k)[i].value] else [])
  {
    ColumnStep(items, i, k);
    PresentAppend(Column(items[..i], k), [Column(items, k)[i]]);
    assert [Column(items, k)[i]][..0] == [];
  }

  /** `build_series`. */
  method BuildSeries(items: seq<Enriched>) returns (series: Series)
    ensures series == SeriesOf(items)
  {
    series := Series([], [], [], []);
    var i := 0;
    while i < |items|
      invariant 0 <= i <= |items|
      invariant series == SeriesOf(items[..i])
    {
      SeriesStep(items, i, 0);
      SeriesStep(items, i, 1);
      SeriesStep(items, i, 2);
      SeriesStep(items, i, 3);
      var item := items[i];
      var s := series;
      if item.stages.serverFound.Some? {
        s := s.(serverFound := s.serverFound + [item.stages.serverFound.value]);
      }
      if item.stages.portFound.Some? {
        s := s.(portFound := s.portFound + [item.stages.portFound.value]);
      }
      if item.stages.endpointHit.Some? {
        s := s.(endpointHit := s.endpointHit + [item.stages.endpointHit.value]);
      }
      if item.timeToSuccess.Some? {
        s := s.(success := s.success + [item.timeToSuccess.value]);
      }
      series := s;
      i := i + 1;
    }
    assert items[..i] == items;
  }

  /** A series never holds more times than there are runs, and holds one for every run with that stage. */
  lemma SeriesBounds(items: seq<Enriched>, k: nat)
    requires k < 4
    ensures |Present(Column(items, k))| <= |items|
    ensures forall i | 0 <= i < |items| :: Column(items, k)[i].Some? ==> Column(items, k)[i].value in Present(Column(items, k))
  {
    var c := Column(items, k);
    PresentMeans(c);
    forall i | 0 <= i < |c| && c[i].Some?
      ensures c[i].value in Present(c)
    {
      var x := c[i].value;
      assert c[i] == Some(x);
      assert Some(x) in c;
    }
  }
}
