/**
 * The automated response orchestrator. It reads SLIPS alerts from the alert
 * file, keeps the high-confidence ones whose identity it has not handled yet,
 * asks the planner for a remediation plan and runs the plan over SSH with a
 * bounded number of retries. An alert's identity is added to the processed
 * set only after it was handled successfully.
 */
module AutoResponder {
  import opened Wrappers
  import opened Text
  import opened Json
  import IpScan

  const SERVER_IP: string := "172.31.0.10"
  const COMPROMISED_IP: string := "172.30.0.10"

  /** An alert record: one decoded JSON object. */
  type Alert = map<string, Value>

  function FieldOr(a: Alert, key: string, default: Value): Value {
    if key in a then a[key] else default
  }

  /** `alert.get(key, "").lower()`; `None` when the value is not a string and the call raises. */
  function LowerField(a: Alert, key: string): Option<string> {
    if key !in a then Some("")
    else match a[key]
      case Str(s) => Some(Lower(s))
      case _ => None
  }

  const NoiseNotes: set<string> := {"heartbeat", "queued", "completed"}

  const HighConfidencePatterns: seq<string> := [
    "confidence: 1", "confidence: 0.9", "confidence: 0.8", "confidence: 1.0",
    "threat level: high", "threat_level: high", "vertical port scan", "horizontal port scan",
    "denial of service", "ddos", "brute force", "password guessing"
  ]

  /** The text the patterns are looked for in. */
  function AlertText(raw: string, description: string, threatLevel: string): string {
    raw + " " + description + " " + threatLevel
  }

  /**
   * Reference definition of the confidence filter: `None` when reading a
   * field raises, otherwise whether the alert is worth responding to.
   */
  function Actionable(a: Alert): Option<bool> {
    match LowerField(a, "note")
    case None => None
    case Some(note) =>
      if note in NoiseNotes then Some(false)
      else if |a| <= 3 && "note" in a then Some(false)
      else match (LowerField(a, "raw"), LowerField(a, "description"), LowerField(a, "threat_level"))
        case (Some(r), Some(d), Some(t)) =>
          Some(exists p | p in HighConfidencePatterns :: Contains(AlertText(r, d, t), p))
        case _ => None
  }

  /** The confidence filter, trying the patterns in order. */
  method IsHighConfidenceAlert(a: Alert) returns (r: Option<bool>)
    ensures r == Actionable(a)
  {
    var note := LowerField(a, "note");
    if note.None? {
      return None;
    }
    if note.value in NoiseNotes {
      return Some(false);
    }
    if |a| <= 3 && "note" in a {
      return Some(false);
    }
    var raw := LowerField(a, "raw");
    var description := LowerField(a, "description");
    var threatLevel := LowerField(a, "threat_level");
    if raw.None? || description.None? || threatLevel.None? {
      return None;
    }
    var text := AlertText(raw.value, description.value, threatLevel.value);
    var i := 0;
    while i < |HighConfidencePatterns|
      invariant 0 <= i <= |HighConfidencePatterns|
      invariant forall j :: 0 <= j < i ==> !Contains(text, HighConfidencePatterns[j])
    {
      if Contains(text, HighConfidencePatterns[i]) {
        return Some(true);
      }
      i := i + 1;
    }
    return Some(false);
  }

  /**
   * What the filter accepts: never a noise note (in any letter case), never a
   * note-carrying alert of three fields or fewer, and otherwise exactly an
   * alert whose lower-cased raw, description and threat-level text holds one
   * of the patterns.
   */
  lemma ActionableMeans(a: Alert)
    ensures LowerField(a, "note").Some? && LowerField(a, "note").value in NoiseNotes ==> Actionable(a) == Some(false)
    ensures "note" in a && |a| <= 3 ==> Actionable(a) != Some(true)
    ensures Actionable(a) == Some(true) ==>
      && LowerField(a, "raw").Some? && LowerField(a, "description").Some? && LowerField(a, "threat_level").Some?
      && exists p | p in HighConfidencePatterns ::
           Contains(AlertText(LowerField(a, "raw").value, LowerField(a, "description").value, LowerField(a, "threat_level").value), p)
    ensures Actionable(a).None? <==>
      || LowerField(a, "note").None?
      || (&& LowerField(a, "note").value !in NoiseNotes && !(|a| <= 3 && "note" in a)
          && (LowerField(a, "raw").None? || LowerField(a, "description").None? || LowerField(a, "threat_level").None?))
  {
  }

  /** A high confidence score in the raw SLIPS text makes an alert actionable. */
  lemma ConfidenceInRawIsActionable(a: Alert, raw: string)
    requires "raw" in a && a["raw"] == Str(raw)
    requires "note" !in a
    requires "description" !in a || a["description"].Str?
    requires "threat_level" !in a || a["threat_level"].Str?
    requires Contains(Lower(raw), "confidence: 0.9")
    ensures Actionable(a) == Some(true)
  {
    var d := LowerField(a, "description").value;
    var t := LowerField(a, "threat_level").value;
    ContainsLeft(Lower(raw), " " + d + " " + t, "confidence: 0.9");
    assert AlertText(Lower(raw), d, t) == Lower(raw) + (" " + d + " " + t);
    assert HighConfidencePatterns[1] == "confidence: 0.9";
  }

  /** The five fields `get_alert_hash` serialises with sorted keys; absent ones read as "". */
  datatype AlertKey = AlertKey(sourceip: Value, destip: Value, attackid: Value, proto: Value, timestamp: Value)

  /** md5 of the canonical serialisation of an alert key. */
  type Digest = AlertKey -> string

  function KeyOf(a: Alert): AlertKey {
    AlertKey(FieldOr(a, "sourceip", Str("")), FieldOr(a, "destip", Str("")), FieldOr(a, "attackid", Str("")),
             FieldOr(a, "proto", Str("")), FieldOr(a, "timestamp", Str("")))
  }

  /** Agreeing on the five key fields means agreeing on the hash. */
  predicate SameKeyFields(a: Alert, b: Alert) {
    forall k | k in ["sourceip", "destip", "attackid", "proto", "timestamp"] :: FieldOr(a, k, Str("")) == FieldOr(b, k, Str(""))
  }

  lemma HashDependsOnKeyFieldsOnly(a: Alert, b: Alert, digest: Digest)
    requires SameKeyFields(a, b)
    ensures digest(KeyOf(a)) == digest(KeyOf(b))
  {
    var names := ["sourceip", "destip", "attackid", "proto", "timestamp"];
    assert names[0] in names && names[1] in names && names[2] in names && names[3] in names && names[4] in names;
  }

  /** What one line of the alert file does to the scan of `get_new_alerts`. */
  datatype LineOutcome = Skip | Stop | Keep(alert: Alert)

  /**
   * Blank and malformed lines, filtered-out alerts and processed hashes are
   * skipped; a decoded value that is not an object, or a field that cannot be
   * lower-cased, raises and stops the scan.
   */
  function LineOutcomeOf(line: string, parse: Parser, processed: set<string>, digest: Digest): LineOutcome {
    var t := Strip(line);
    if t == [] then Skip
    else match parse(t)
      case None => Skip
      case Some(v) =>
        if !v.Obj? then Stop
        else match Actionable(v.fields)
          case None => Stop
          case Some(false) => Skip
          case Some(true) => if digest(KeyOf(v.fields)) in processed then Skip else Keep(v.fields)
  }

  /** The specification of `get_new_alerts` over the lines of the alert file. */
  function NewAlerts(lines: seq<string>, parse: Parser, processed: set<string>, digest: Digest): seq<Alert>
    decreases |lines|
  {
    if lines == [] then []
    else match LineOutcomeOf(lines[0], parse, processed, digest)
      case Skip => NewAlerts(lines[1..], parse, processed, digest)
      case Stop => []
      case Keep(a) => [a] + NewAlerts(lines[1..], parse, processed, digest)
  }

  /** A kept line holds an actionable alert whose hash is not processed. */
  lemma KeptLineQualifies(line: string, parse: Parser, processed: set<string>, digest: Digest)
    requires LineOutcomeOf(line, parse, processed, digest).Keep?
    ensures var a := LineOutcomeOf(line, parse, processed, digest).alert;
      Strip(line) != [] && parse(Strip(line)) == Some(Obj(a))
      && Actionable(a) == Some(true) && digest(KeyOf(a)) !in processed
  {
  }

  /** Every alert returned was kept from some line of the file, so it is actionable and unprocessed. */
  lemma {:induction false} NewAlertsSound(lines: seq<string>, parse: Parser, processed: set<string>, digest: Digest, a: Alert)
    requires a in NewAlerts(lines, parse, processed, digest)
    ensures Actionable(a) == Some(true) && digest(KeyOf(a)) !in processed
    ensures exists i :: 0 <= i < |lines| && LineOutcomeOf(lines[i], parse, processed, digest) == Keep(a)
    decreases |lines|
  {
    var o := LineOutcomeOf(lines[0], parse, processed, digest);
    if o == Keep(a) {
      KeptLineQualifies(lines[0], parse, processed, digest);
    } else {
      NewAlertsSound(lines[1..], parse, processed, digest, a);
      var i :| 0 <= i < |lines[1..]| && LineOutcomeOf(lines[1..][i], parse, processed, digest) == Keep(a);
      assert lines[1..][i] == lines[i + 1];
    }
  }

  /** Until a line stops the scan, lines are handled one by one in file order. */
  lemma {:induction false} NewAlertsAppend(xs: seq<string>, ys: seq<string>, parse: Parser, processed: set<string>, digest: Digest)
    requires forall i :: 0 <= i < |xs| ==> LineOutcomeOf(xs[i], parse, processed, digest) != Stop
    ensures NewAlerts(xs + ys, parse, processed, digest)
      == NewAlerts(xs, parse, processed, digest) + NewAlerts(ys, parse, processed, digest)
    decreases |xs|
  {
    if xs == [] {
      assert xs + ys == ys;
    } else {
      assert (xs + ys)[0] == xs[0];
      assert (xs + ys)[1..] == xs[1..] + ys;
      assert LineOutcomeOf(xs[0], parse, processed, digest) != Stop;
      NewAlertsAppend(xs[1..], ys, parse, processed, digest);
    }
  }

  /**
   * A line that stops the scan keeps the alerts of the lines before it and
   * adds nothing itself, nor any of the lines after it, however many alerts
   * they hold.
   */
  lemma StopDropsRest(xs: seq<string>, line: string, ys: seq<string>, parse: Parser, processed: set<string>, digest: Digest)
    requires forall i :: 0 <= i < |xs| ==> LineOutcomeOf(xs[i], parse, processed, digest) != Stop
    requires LineOutcomeOf(line, parse, processed, digest) == Stop
    ensures NewAlerts(xs + [line] + ys, parse, processed, digest) == NewAlerts(xs, parse, processed, digest)
  {
    assert ([line] + ys)[0] == line;
    assert NewAlerts([line] + ys, parse, processed, digest) == [];
    NewAlertsAppend(xs, [line] + ys, parse, processed, digest);
    assert xs + [line] + ys == xs + ([line] + ys);
  }

  /** One line of the scan, with the filter run as the method that tries the patterns in order. */
  method ReadLine(line: string, parse: Parser, processed: set<string>, digest: Digest) returns (o: LineOutcome)
    ensures o == LineOutcomeOf(line, parse, processed, digest)
  {
    var t := Strip(line);
    if t == [] {
      return Skip;
    }
    var parsed := parse(t);
    if parsed.None? {
      return Skip;
    }
    var v := parsed.value;
    if !v.Obj? {
      return Stop;
    }
    var ok := IsHighConfidenceAlert(v.fields);
    if ok.None? {
      return Stop;
    }
    if !ok.value || digest(KeyOf(v.fields)) in processed {
      return Skip;
    }
    return Keep(v.fields);
  }

  /** `get_new_alerts`: a missing file yields no alerts. */
  method GetNewAlerts(file: Option<seq<string>>, parse: Parser, processed: set<string>, digest: Digest)
    returns (r: seq<Alert>)
    ensures r == if file.None? then [] else NewAlerts(file.value, parse, processed, digest)
  {
    if file.None? {
      return [];
    }
    var lines := file.value;
    r := [];
    var i := 0;
    while i < |lines|
      invariant 0 <= i <= |lines|
      invariant r + NewAlerts(lines[i..], parse, processed, digest) == NewAlerts(lines, parse, processed, digest)
    {
      assert lines[i..][0] == lines[i] && lines[i..][1..] == lines[i + 1..];
      var o := ReadLine(lines[i], parse, processed, digest);
      if o.Stop? {
        return;
      }
      if o.Keep? {
        r := r + [o.alert];
      }
      i := i + 1;
    }
    assert lines[i..] == [];
  }

  /** The fields of the planner text. */
  datatype PlannerFields = PlannerFields(timestamp: string, sourceIp: string, attackId: string, proto: string,
                                         destIp: string, description: Value)

  function RenderOr(a: Alert, key: string, default: string): string {
    if key in a then Render(a[key]) else default
  }

  const StampShape: string := "dddd-dd-ddTdd:dd:dd"

  predicate FitsShape(c: char, shape: char) {
    if shape == 'd' then IsDigit(c) else c == shape
  }

  /** `\d{4}-\d{2}-\d{2}T\d{2}:\d{2}:\d{2}` matches at index `i`. */
  predicate StampAt(s: string, i: nat) {
    i + |StampShape| <= |s| && forall k :: 0 <= k < |StampShape| ==> FitsShape(s[i + k], StampShape[k])
  }

  /** `re.search` of the timestamp pattern from index `from`: the leftmost match. */
  function FirstStamp(s: string, from: nat): (r: Option<string>)
    requires from <= |s|
    ensures r.Some? ==> exists i :: from <= i && StampAt(s, i) && r.value == s[i..i + |StampShape|]
    ensures r.None? ==> forall i :: from <= i <= |s| ==> !StampAt(s, i)
    decreases |s| - from
  {
    if StampAt(s, from) then Some(s[from..from + |StampShape|])
    else if from == |s| then None
    else FirstStamp(s, from + 1)
  }

  /**
   * The fields `format_alert_for_planner` writes: `None` when it raises
   * (a non-string `raw` handed to the IP search).
   */
  function PlannerFieldsOf(a: Alert, now: string): (r: Option<PlannerFields>)
    ensures var raw := FieldOr(a, "raw", Str(""));
      var unknown := RenderOr(a, "sourceip", "unknown") == "unknown" || RenderOr(a, "destip", "unknown") == "unknown";
      && (r.None? <==> Truthy(raw) && unknown && !raw.Str?)
      && (r.Some? && Truthy(raw) && unknown && |IpScan.FindIPs(raw.s)| >= 2 ==>
            r.value.sourceIp == IpScan.FindIPs(raw.s)[0] && r.value.destIp == IpScan.FindIPs(raw.s)[1]
            && r.value.description == raw)
      && (r.Some? && !(Truthy(raw) && unknown) ==>
            r.value.sourceIp == RenderOr(a, "sourceip", "unknown") && r.value.destIp == RenderOr(a, "destip", "unknown"))
  {
    var ts := RenderOr(a, "timestamp", now);
    var src := RenderOr(a, "sourceip", "unknown");
    var dst := RenderOr(a, "destip", "unknown");
    var attack := RenderOr(a, "attackid", "unknown");
    var proto := RenderOr(a, "proto", "unknown");
    var d := FieldOr(a, "description", Str(""));
    var description := if Truthy(d) then d else FieldOr(a, "threat_level", Str(""));
    var raw := FieldOr(a, "raw", Str(""));
    if Truthy(raw) && (src == "unknown" || dst == "unknown") then
      if !raw.Str? then None
      else
        var ips := IpScan.FindIPs(raw.s);
        var src2 := if |ips| >= 2 then ips[0] else src;
        var dst2 := if |ips| >= 2 then ips[1] else dst;
        var ts2 := match FirstStamp(raw.s, 0) case Some(m) => m + "+00:00" case None => ts;
        var attack2 := if Contains(Lower(raw.s), "vertical port scan") then "vertical_port_scan" else "unknown";
        var proto2 := if Contains(raw.s, "TCP") then "TCP" else "unknown";
        Some(PlannerFields(ts2, src2, attack2, proto2, dst2, raw))
    else
      Some(PlannerFields(ts, src, attack, proto, dst, description))
  }

  function Header(f: PlannerFields): string {
    f.timestamp + " " + f.sourceIp + " " + f.attackId + " (" + f.proto + ") targeting " + f.destIp
  }

  /** `format_alert_for_planner`. */
  function FormatAlertForPlanner(a: Alert, now: string): Option<string> {
    match PlannerFieldsOf(a, now)
    case None => None
    case Some(f) => Some(Header(f) + if Truthy(f.description) then " - " + Render(f.description) else "")
  }

  /** The planner text always opens with the header, and grows past it exactly when the description is non-empty. */
  lemma FormatShape(a: Alert, now: string)
    requires PlannerFieldsOf(a, now).Some?
    ensures var f := PlannerFieldsOf(a, now).value;
      var t := FormatAlertForPlanner(a, now).value;
      StartsWith(t, Header(f)) && (t == Header(f) <==> !Truthy(f.description))
      && (Truthy(f.description) ==> EndsWith(t, " - " + Render(f.description)))
  {
    var f := PlannerFieldsOf(a, now).value;
    var t := FormatAlertForPlanner(a, now).value;
    if Truthy(f.description) {
      assert t == Header(f) + (" - " + Render(f.description));
      assert |t| > |Header(f)|;
    } else {
      assert t == Header(f) + "";
    }
  }

  /** `determine_target_ssh_info`: never `None`; only the compromised subnet maps away from the server. */
  function DetermineTargetSshInfo(executorIp: string): (r: Option<(string, string)>)
    ensures r.Some?
    ensures StartsWith(executorIp, "172.30.0.") <==> r.value == (COMPROMISED_IP, "compromised")
    ensures !StartsWith(executorIp, "172.30.0.") <==> r.value == (SERVER_IP, "server")
  {
    if StartsWith(executorIp, "172.31.0.") then
      assert executorIp[5] == '1';
      Some((SERVER_IP, "server"))
    else if StartsWith(executorIp, "172.30.0.") then Some((COMPROMISED_IP, "compromised"))
    else Some((SERVER_IP, "server"))
  }

  /**
   * `execute_plan_with_opencode`: `attemptOk(k)` is whether SSH attempt `k`
   * exits successfully. Returns the target, the attempts made and the waits
   * slept between them.
   */
  method ExecutePlanWithOpencode(executorIp: string, sshKeyReady: bool, maxRetries: nat, attemptOk: nat -> bool)
    returns (success: bool, target: (string, string), attempts: nat, waits: seq<nat>)
    ensures target == DetermineTargetSshInfo(executorIp).value
    ensures !sshKeyReady ==> !success && attempts == 0
    ensures sshKeyReady ==> (success <==> exists k :: 0 <= k < maxRetries && attemptOk(k))
    ensures attempts <= maxRetries
    ensures success ==> 1 <= attempts && attemptOk(attempts - 1) && forall k :: 0 <= k < attempts - 1 ==> !attemptOk(k)
    ensures sshKeyReady && !success ==> attempts == maxRetries
    ensures |waits| == (if attempts == 0 then 0 else attempts - 1)
    ensures forall k :: 0 <= k < |waits| ==> waits[k] == 10 * (k + 1)
  {
    var info := DetermineTargetSshInfo(executorIp);
    target := info.value;
    waits := [];
    attempts := 0;
    if !sshKeyReady {
      return false, target, attempts, waits;
    }
    var attempt := 0;
    while attempt < maxRetries
      invariant 0 <= attempt <= maxRetries && attempts == attempt
      invariant forall k :: 0 <= k < attempt ==> !attemptOk(k)
      invariant |waits| == if attempt < maxRetries || attempt == 0 then attempt else attempt - 1
      invariant forall k :: 0 <= k < |waits| ==> waits[k] == 10 * (k + 1)
    {
      attempts := attempt + 1;
      if attemptOk(attempt) {
        return true, target, attempts, waits;
      }
      if attempt < maxRetries - 1 {
        waits := waits + [10 * (attempt + 1)];
      }
      attempt := attempt + 1;
    }
    success := false;
  }

  /**
   * The reply check of `process_alert`: the plan and executor IP of a
   * non-empty object reply whose plan and executor IP are both non-empty.
   * A reply that is not an object raises on `.get`, which is caught as a failure.
   */
  function ValidatePlan(reply: Option<Value>): (r: Option<(Value, Value)>)
    ensures r.Some? <==>
      (reply.Some? && reply.value.Obj? && reply.value.fields != map[]
       && Truthy(GetOr(reply.value, "plan", Str(""))) && Truthy(GetOr(reply.value, "executor_host_ip", Str(""))))
    ensures r.Some? ==> r.value == (GetOr(reply.value, "plan", Str("")), GetOr(reply.value, "executor_host_ip", Str("")))
  {
    match reply
    case None => None
    case Some(v) =>
      if !Truthy(v) || !v.Obj? then None
      else
        var plan := GetOr(v, "plan", Str(""));
        var ip := GetOr(v, "executor_host_ip", Str(""));
        if !Truthy(plan) || !Truthy(ip) then None else Some((plan, ip))
  }

  /**
   * `process_alert` looks for IPs in `raw` for its log line before anything
   * else; a `raw` that is not a string then raises out of the method.
   */
  predicate LoggingRaises(a: Alert) {
    (FieldOr(a, "sourceip", Str("unknown")) == Str("unknown") || FieldOr(a, "destip", Str("unknown")) == Str("unknown"))
    && !FieldOr(a, "raw", Str("")).Str?
  }

  /** When `process_alert` reports success, given the planner's reply and the SSH attempts' outcomes. */
  predicate ProcessSucceeds(a: Alert, now: string, reply: Option<Value>, sshKeyReady: bool, maxRetries: nat, attemptOk: nat -> bool) {
    && !LoggingRaises(a)
    && PlannerFieldsOf(a, now).Some?
    && ValidatePlan(reply).Some?
    && ValidatePlan(reply).value.1.Str?
    && sshKeyReady
    && exists k :: 0 <= k < maxRetries && attemptOk(k)
  }

  /**
   * `process_alert`: format the alert, check the planner's reply to that text,
   * and run the plan. A raise anywhere counts as failure, since `run_once`
   * catches it and leaves the alert unprocessed.
   */
  method ProcessAlert(a: Alert, now: string, reply: Option<Value>, sshKeyReady: bool, maxRetries: nat, attemptOk: nat -> bool)
    returns (success: bool)
    ensures success == ProcessSucceeds(a, now, reply, sshKeyReady, maxRetries, attemptOk)
  {
    if LoggingRaises(a) {
      return false;
    }
    var text := FormatAlertForPlanner(a, now);
    if text.None? {
      return false;
    }
    var checked := ValidatePlan(reply);
    if checked.None? {
      return false;
    }
    var ip := checked.value.1;
    if !ip.Str? {
      return false;
    }
    var target, attempts, waits;
    success, target, attempts, waits := ExecutePlanWithOpencode(ip.s, sshKeyReady, maxRetries, attemptOk);
  }

  /** The hashes of the first `n` alerts whose handling succeeded. */
  function SucceededHashes(alerts: seq<Alert>, handled: nat -> bool, n: nat, digest: Digest): (r: set<string>)
    requires n <= |alerts|
    ensures forall h :: h in r <==> exists i :: 0 <= i < n && handled(i) && digest(KeyOf(alerts[i])) == h
  {
    if n == 0 then {}
    else
      var prev := SucceededHashes(alerts, handled, n - 1, digest);
      if handled(n - 1) then prev + {digest(KeyOf(alerts[n - 1]))} else prev
  }

  /** How many of the first `n` alerts were handled successfully. */
  function CountHandled(handled: nat -> bool, n: nat): (r: nat)
    ensures r <= n
    ensures r == 0 <==> forall i :: 0 <= i < n ==> !handled(i)
  {
    if n == 0 then 0 else CountHandled(handled, n - 1) + if handled(n - 1) then 1 else 0
  }

  /**
   * The loop of `run_once`: add the hash of every successfully handled alert
   * to `processed`, and count the successes.
   */
  method MarkHandled(alerts: seq<Alert>, handled: nat -> bool, processed: set<string>, digest: Digest)
    returns (done: set<string>, count: nat)
    ensures done == processed + SucceededHashes(alerts, handled, |alerts|, digest)
    ensures count == CountHandled(handled, |alerts|)
  {
    done := processed;
    count := 0;
    var i := 0;
    while i < |alerts|
      invariant 0 <= i <= |alerts|
      invariant done == processed + SucceededHashes(alerts, handled, i, digest)
      invariant count == CountHandled(handled, i)
    {
      SucceededStep(alerts, handled, i, digest);
      if handled(i) {
        done := done + {digest(KeyOf(alerts[i]))};
        count := count + 1;
      }
      i := i + 1;
    }
  }

  lemma SucceededStep(alerts: seq<Alert>, handled: nat -> bool, i: nat, digest: Digest)
    requires i < |alerts|
    ensures SucceededHashes(alerts, handled, i + 1, digest)
      == SucceededHashes(alerts, handled, i, digest) + (if handled(i) then {digest(KeyOf(alerts[i]))} else {})
  {
  }

  /** The responder and the set of alert hashes it has handled. */
  class Responder {
    var processed: set<string>
    /** The processed-alerts file as last written by this responder, if ever. */
    var persisted: Option<set<string>>
    const digest: Digest

    /** `load_processed_alerts`: the stored hash list, or nothing when the file is missing or unreadable. */
    constructor (stored: Option<seq<string>>, digest: Digest)
      ensures this.digest == digest
      ensures processed == if stored.Some? then set h | h in stored.value else {}
      ensures persisted == None
    {
      this.digest := digest;
      processed := if stored.Some? then set h | h in stored.value else {};
      persisted := None;
    }

    /** `save_processed_alerts`. */
    method SaveProcessedAlerts()
      modifies this`persisted
      ensures persisted == Some(processed)
    {
      persisted := Some(processed);
    }

    /**
     * `run_once`: `handled(i)` is what `process_alert` returned for the i-th
     * new alert. Only successful alerts are marked processed, and the set is
     * saved only when at least one succeeded.
     */
    method RunOnce(file: Option<seq<string>>, parse: Parser, handled: nat -> bool)
      returns (newAlerts: seq<Alert>, processedCount: nat)
      modifies this
      ensures newAlerts == if file.None? then [] else NewAlerts(file.value, parse, old(processed), digest)
      ensures processed == old(processed) + SucceededHashes(newAlerts, handled, |newAlerts|, digest)
      ensures processedCount == CountHandled(handled, |newAlerts|)
      ensures persisted == if processedCount > 0 then Some(processed) else old(persisted)
    {
      newAlerts := GetNewAlerts(file, parse, processed, digest);
      if newAlerts == [] {
        return newAlerts, 0;
      }
      var done;
      done, processedCount := MarkHandled(newAlerts, handled, processed, digest);
      processed := done;
      if processedCount > 0 {
        SaveProcessedAlerts();
      }
    }
  }
}
