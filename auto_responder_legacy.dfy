/**
 * The earlier automated responder. It responds to every alert of medium or
 * higher threat level, has no confidence filter, keeps its processed set in
 * memory only, and shares that set between alert hashes and the
 * "source->destination->attack" repeat keys, which it cuts back to the 100
 * lexicographically greatest entries whenever a new key takes it past 100.
 */
module AutoResponderLegacy {
  import opened Wrappers
  import opened Text
  import opened Json
  import AR = AutoResponder

  const RespondLevels: set<string> := {"medium", "high", "critical"}

  const REPEAT_CAP: nat := 100

  /**
   * `should_respond_to_alert`: `None` when a field read as text is not a
   * string, so that `.lower()` raises.
   */
  function ShouldRespond(a: AR.Alert): (r: Option<bool>)
    ensures r == Some(true) <==>
      (AR.LowerField(a, "threat_level").Some? && AR.LowerField(a, "threat_level").value in RespondLevels
       && AR.LowerField(a, "note").Some? && !Contains(AR.LowerField(a, "note").value, "heartbeat"))
    ensures r.None? <==>
      (AR.LowerField(a, "threat_level").None?
       || (AR.LowerField(a, "threat_level").value in RespondLevels && AR.LowerField(a, "note").None?))
  {
    match AR.LowerField(a, "threat_level")
    case None => None
    case Some(level) =>
      if level !in RespondLevels then Some(false)
      else match AR.LowerField(a, "note")
        case None => None
        case Some(note) => Some(!Contains(note, "heartbeat"))
  }

  /** A heartbeat never triggers a response, whatever its threat level. */
  lemma HeartbeatNeverResponds(a: AR.Alert)
    requires "note" in a && a["note"] == Str("heartbeat")
    ensures ShouldRespond(a) != Some(true)
  {
    ContainsPrefix("heartbeat", "heartbeat");
    assert Lower("heartbeat") == "heartbeat";
  }

  /** The key `is_repeat_alert` records: `f"{source_ip}->{dest_ip}->{attack_id}"`, absent fields read as "". */
  function RepeatKey(a: AR.Alert): string {
    AR.RenderOr(a, "sourceip", "") + "->" + AR.RenderOr(a, "destip", "") + "->" + AR.RenderOr(a, "attackid", "")
  }

  /** The greatest string of a non-empty set. */
  ghost function MaxOf(s: set<string>): (m: string)
    requires s != {}
    ensures m in s && forall y :: y in s ==> y == m || StrLt(y, m)
    decreases |s|
  {
    var x :| x in s;
    if s == {x} then x
    else
      var m := MaxOf(s - {x});
      if StrLt(x, m) then m
      else
        StrLtTotal(x, m);
        assert forall y :: y in s - {x} ==> y == m || StrLt(y, m);
        assert forall y :: y in s - {x} && StrLt(y, m) ==> StrLt(y, x) by {
          forall y | y in s - {x} && StrLt(y, m) {
            StrLtTrans(y, m, x);
          }
        }
        x
  }

  /**
   * `set(sorted(s, reverse=True)[:n])`: the `n` greatest strings of `s`.
   * Every kept string is greater than every dropped one.
   */
  ghost function TopN(s: set<string>, n: nat): (r: set<string>)
    ensures r <= s && |r| == Min(n, |s|)
    ensures forall x, y :: x in r && y in s && y !in r ==> StrLt(y, x)
    decreases n
  {
    if n == 0 || s == {} then {}
    else
      var m := MaxOf(s);
      var rest := TopN(s - {m}, n - 1);
      assert forall x, y :: x in rest && y in s - {m} && y !in rest ==> StrLt(y, x);
      rest + {m}
  }

  /** Two subsets of equal size that both rank above their complement are equal. */
  lemma TopRankedUnique(s: set<string>, a: set<string>, b: set<string>)
    requires a <= s && b <= s && |a| == |b|
    requires forall x, y :: x in a && y in s && y !in a ==> StrLt(y, x)
    requires forall x, y :: x in b && y in s && y !in b ==> StrLt(y, x)
    ensures a == b
  {
    if a != b {
      assert |a - b| == |b - a| by {
        assert a == (a - b) + (a * b) && b == (b - a) + (a * b);
        assert (a - b) !! (a * b) && (b - a) !! (a * b);
      }
      assert a - b != {} || b - a != {};
      var x, z :| x in a - b && z in b - a;
      StrLtAsym(z, x);
    }
  }

  /** The greatest string of a non-empty set, found by one pass over it. */
  method MaxIn(s: set<string>) returns (m: string)
    requires s != {}
    ensures m == MaxOf(s)
  {
    m :| m in s;
    var rest := s - {m};
    while rest != {}
      invariant rest <= s && m in s && m !in rest
      invariant forall y :: y in s && y !in rest ==> y == m || StrLt(y, m)
      decreases |rest|
    {
      var y :| y in rest;
      if StrLt(m, y) {
        forall z | z in s && z !in rest && z != m
          ensures StrLt(z, y)
        {
          StrLtTrans(z, m, y);
        }
        m := y;
      } else {
        StrLtTotal(m, y);
      }
      rest := rest - {y};
    }
    var w := MaxOf(s);
    if w != m {
      StrLtAsym(w, m);
    }
  }

  /** The truncation `set(sorted(s, reverse=True)[:n])`, taking the greatest remaining string `n` times. */
  method TopEntries(s: set<string>, n: nat) returns (kept: set<string>)
    ensures kept == TopN(s, n)
  {
    kept := {};
    var rest := s;
    while |kept| < n && rest != {}
      invariant kept + rest == s && kept !! rest
      invariant |kept| <= n
      invariant forall x, y :: x in kept && y in rest ==> StrLt(y, x)
      decreases |rest|
    {
      var m := MaxIn(rest);
      kept := kept + {m};
      rest := rest - {m};
    }
    assert |s| == |kept| + |rest|;
    TopRankedUnique(s, kept, TopN(s, n));
  }

  /**
   * The processed set after `is_repeat_alert` records `key`: unchanged when
   * the key is present; otherwise the key is added and, past 100 entries,
   * only the 100 greatest entries stay (which may drop the new key itself).
   */
  ghost function InsertKey(p: set<string>, key: string): (r: set<string>)
    ensures key in p ==> r == p
    ensures key !in p ==> r <= p + {key} && |r| == Min(|p| + 1, REPEAT_CAP)
    ensures key !in p && |p| < REPEAT_CAP ==> r == p + {key}
  {
    if key in p then p
    else if |p + {key}| > REPEAT_CAP then TopN(p + {key}, REPEAT_CAP)
    else p + {key}
  }

  /**
   * What one line of the alert file does to the scan. There is no filter
   * here: every decoded object whose hash is not processed is kept, and a
   * decoded value that is not an object stops the scan when hashing it raises.
   */
  function LineOutcomeOf(line: string, parse: Parser, processed: set<string>, digest: AR.Digest): AR.LineOutcome {
    var t := Strip(line);
    if t == [] then AR.Skip
    else match parse(t)
      case None => AR.Skip
      case Some(v) =>
        if !v.Obj? then AR.Stop
        else if digest(AR.KeyOf(v.fields)) in processed then AR.Skip
        else AR.Keep(v.fields)
  }

  /** The specification of the legacy `get_new_alerts`. */
  function NewAlerts(lines: seq<string>, parse: Parser, processed: set<string>, digest: AR.Digest): seq<AR.Alert>
    decreases |lines|
  {
    if lines == [] then []
    else match LineOutcomeOf(lines[0], parse, processed, digest)
      case Skip => NewAlerts(lines[1..], parse, processed, digest)
      case Stop => []
      case Keep(a) => [a] + NewAlerts(lines[1..], parse, processed, digest)
  }

  /** Line `line` holds the unprocessed object `a`. */
  predicate HoldsNew(line: string, parse: Parser, processed: set<string>, digest: AR.Digest, a: AR.Alert) {
    Strip(line) != [] && parse(Strip(line)) == Some(Obj(a)) && digest(AR.KeyOf(a)) !in processed
  }

  /** Every alert the legacy scan returns is an unprocessed object from some line, whatever its threat level or note. */
  lemma {:induction false} NewAlertsSound(lines: seq<string>, parse: Parser, processed: set<string>, digest: AR.Digest, a: AR.Alert)
    requires a in NewAlerts(lines, parse, processed, digest)
    ensures exists i :: 0 <= i < |lines| && HoldsNew(lines[i], parse, processed, digest, a)
    decreases |lines|
  {
    if LineOutcomeOf(lines[0], parse, processed, digest) == AR.Keep(a) {
      assert HoldsNew(lines[0], parse, processed, digest, a);
    } else {
      NewAlertsSound(lines[1..], parse, processed, digest, a);
      var i :| 0 <= i < |lines[1..]| && HoldsNew(lines[1..][i], parse, processed, digest, a);
      assert lines[1..][i] == lines[i + 1];
    }
  }

  /**
   * Until a line raises, every unprocessed object in the file is returned:
   * the legacy scan has no confidence filter.
   */
  lemma {:induction false} NewAlertsComplete(lines: seq<string>, parse: Parser, processed: set<string>, digest: AR.Digest,
                                             i: nat, a: AR.Alert)
    requires forall j :: 0 <= j < |lines| ==> LineOutcomeOf(lines[j], parse, processed, digest) != AR.Stop
    requires i < |lines| && HoldsNew(lines[i], parse, processed, digest, a)
    ensures a in NewAlerts(lines, parse, processed, digest)
    decreases |lines|
  {
    if i > 0 {
      assert lines[1..][i - 1] == lines[i];
      assert forall j :: 0 <= j < |lines[1..]| ==> lines[1..][j] == lines[j + 1];
      NewAlertsComplete(lines[1..], parse, processed, digest, i - 1, a);
      assert LineOutcomeOf(lines[0], parse, processed, digest) != AR.Stop;
    }
  }

  /** `get_new_alerts`: a missing file yields no alerts; a raise ends the scan with what was collected. */
  method GetNewAlerts(file: Option<seq<string>>, parse: Parser, processed: set<string>, digest: AR.Digest)
    returns (r: seq<AR.Alert>)
    ensures r == if file.None? then [] else NewAlerts(file.value, parse, processed, digest)
  {
    if file.None? {
      return [];
    }
    var lines := file.value;
    r := [];
    var i := 0;
    while i < |lines|
      invariant 0 <= i <= |lines|
      invariant r + NewAlerts(lines[i..], parse, processed, digest) == NewAlerts(lines, parse, processed, digest)
    {
      assert lines[i..][0] == lines[i] && lines[i..][1..] == lines[i + 1..];
      var o := LineOutcomeOf(lines[i], parse, processed, digest);
      if o.Stop? {
        return;
      }
      if o.Keep? {
        r := r + [o.alert];
      }
      i := i + 1;
    }
    assert lines[i..] == [];
  }

  /**
   * The container mapping of `execute_plan_with_opencode`: the server for
   * its own address, for loopback and for anything in 172.31.0.0/16; the
   * compromised host otherwise.
   */
  function TargetFor(executorIp: string): (r: (string, string))
    ensures r == ("lab_server", AR.SERVER_IP) <==>
      (executorIp == AR.SERVER_IP || executorIp == "127.0.0.1" || StartsWith(executorIp, "172.31."))
    ensures r != ("lab_server", AR.SERVER_IP) ==> r == ("lab_compromised", AR.COMPROMISED_IP)
  {
    if executorIp in [AR.SERVER_IP, "127.0.0.1"] || StartsWith(executorIp, "172.31.") then ("lab_server", AR.SERVER_IP)
    else ("lab_compromised", AR.COMPROMISED_IP)
  }

  /**
   * On the two lab subnets the legacy mapping and `determine_target_ssh_info`
   * pick the same host; they differ elsewhere, for example on 172.30.1.1.
   */
  lemma TargetsAgreeOnLabSubnets(ip: string)
    requires StartsWith(ip, "172.31.0.") || StartsWith(ip, "172.30.0.")
    ensures TargetFor(ip).1 == AR.DetermineTargetSshInfo(ip).value.0
  {
    if StartsWith(ip, "172.30.0.") {
      assert ip[5] == '0';
      assert ip != AR.SERVER_IP && ip != "127.0.0.1";
      assert !StartsWith(ip, "172.31.");
    } else {
      assert StartsWith(ip, "172.31.");
    }
  }

  lemma TargetsDisagreeOffSubnet()
    ensures TargetFor("172.30.1.1").1 == AR.COMPROMISED_IP
    ensures AR.DetermineTargetSshInfo("172.30.1.1").value.0 == AR.SERVER_IP
  {
    assert "172.30.1.1"[7] != "172.30.0."[7];
    assert "172.30.1.1"[5] != "172.31."[5];
  }

  /**
   * When the legacy `process_alert` returns True: for an alert that does not
   * qualify, or for a qualifying one whose planner reply is a non-empty
   * object with a non-empty plan and a string executor IP (default
   * "127.0.0.1") and whose SSH command exits with status 0.
   */
  predicate Succeeds(a: AR.Alert, reply: Option<Value>, exitOk: bool) {
    || ShouldRespond(a) == Some(false)
    || (&& ShouldRespond(a) == Some(true)
        && reply.Some? && reply.value.Obj? && reply.value.fields != map[]
        && Truthy(GetOr(reply.value, "plan", Str("")))
        && GetOr(reply.value, "executor_host_ip", Str("127.0.0.1")).Str?
        && exitOk)
  }

  /** The processed set after `process_alert`: only a qualifying alert records its repeat key. */
  ghost function AfterProcess(p: set<string>, a: AR.Alert): set<string> {
    if ShouldRespond(a) == Some(true) then InsertKey(p, RepeatKey(a)) else p
  }

  /** The processed set after `run_once` handled one alert: its hash is added when `process_alert` returned True. */
  ghost function AfterAlert(p: set<string>, a: AR.Alert, reply: Option<Value>, exitOk: bool, digest: AR.Digest): set<string> {
    var q := AfterProcess(p, a);
    if Succeeds(a, reply, exitOk) then q + {digest(AR.KeyOf(a))} else q
  }

  /** The processed set after `run_once` handled the first `n` alerts. */
  ghost function AfterAlerts(p: set<string>, alerts: seq<AR.Alert>, replies: nat -> Option<Value>, exitOk: nat -> bool,
                             digest: AR.Digest, n: nat): set<string>
    requires n <= |alerts|
  {
    if n == 0 then p
    else AfterAlert(AfterAlerts(p, alerts, replies, exitOk, digest, n - 1), alerts[n - 1], replies(n - 1), exitOk(n - 1), digest)
  }

  /** An alert that does not qualify is marked processed by `run_once` straight away. */
  lemma SkippedAlertIsMarked(p: set<string>, a: AR.Alert, reply: Option<Value>, exitOk: bool, digest: AR.Digest)
    requires ShouldRespond(a) == Some(false)
    ensures AfterAlert(p, a, reply, exitOk, digest) == p + {digest(AR.KeyOf(a))}
  {
  }

  /** A qualifying alert with an empty or missing plan is not marked, so it is retried on the next poll. */
  lemma EmptyPlanIsRetried(p: set<string>, a: AR.Alert, reply: Value, exitOk: bool, digest: AR.Digest)
    requires ShouldRespond(a) == Some(true)
    requires !Truthy(GetOr(reply, "plan", Str("")))
    ensures !Succeeds(a, Some(reply), exitOk)
    ensures AfterAlert(p, a, Some(reply), exitOk, digest) == InsertKey(p, RepeatKey(a))
  {
  }

  /** Without truncation, handling alerts never removes an entry from the processed set. */
  lemma {:induction false} AfterAlertsGrowsBelowCap(p: set<string>, alerts: seq<AR.Alert>, replies: nat -> Option<Value>,
                                                     exitOk: nat -> bool, digest: AR.Digest, n: nat)
    requires n <= |alerts|
    requires |p| + 2 * n < REPEAT_CAP
    ensures p <= AfterAlerts(p, alerts, replies, exitOk, digest, n)
    ensures |AfterAlerts(p, alerts, replies, exitOk, digest, n)| <= |p| + 2 * n
  {
    if n > 0 {
      AfterAlertsGrowsBelowCap(p, alerts, replies, exitOk, digest, n - 1);
      var q := AfterAlerts(p, alerts, replies, exitOk, digest, n - 1);
      var a := alerts[n - 1];
      var q1 := AfterProcess(q, a);
      assert q <= q1 && |q1| <= |q| + 1;
      var h := digest(AR.KeyOf(a));
      assert |q1 + {h}| <= |q1| + 1;
    }
  }

  /** The legacy responder: its processed set lives in memory only. */
  class LegacyResponder {
    var processed: set<string>
    const digest: AR.Digest

    /** `load_processed_alerts` always starts from the empty set; `save_processed_alerts` writes nothing. */
    constructor (digest: AR.Digest)
      ensures processed == {} && this.digest == digest
    {
      processed := {};
      this.digest := digest;
    }

    /** `is_repeat_alert`: records the repeat key and never reports a repeat. */
    method IsRepeatAlert(a: AR.Alert) returns (r: bool)
      modifies this
      ensures !r
      ensures processed == InsertKey(old(processed), RepeatKey(a))
    {
      var key := RepeatKey(a);
      if key in processed {
        return false;
      }
      processed := processed + {key};
      if |processed| > REPEAT_CAP {
        processed := TopEntries(processed, REPEAT_CAP);
      }
      return false;
    }

    /**
     * `process_alert`: `reply` is what the planner returned for the alert
     * text, `exitOk` whether the SSH command exited with status 0.
     */
    method ProcessAlert(a: AR.Alert, reply: Option<Value>, exitOk: bool) returns (success: bool)
      modifies this
      ensures success == Succeeds(a, reply, exitOk)
      ensures processed == AfterProcess(old(processed), a)
    {
      var respond := ShouldRespond(a);
      if respond.None? || !respond.value {
        // A raise here escapes to `run_once`, which leaves the alert unmarked.
        return respond.Some?;
      }
      var repeat := IsRepeatAlert(a);
      if repeat {
        return true;
      }
      if reply.None? || !Truthy(reply.value) || !reply.value.Obj? {
        return false;
      }
      var plan := GetOr(reply.value, "plan", Str(""));
      var executorIp := GetOr(reply.value, "executor_host_ip", Str("127.0.0.1"));
      if !Truthy(plan) {
        return false;
      }
      if !executorIp.Str? {
        return false;
      }
      var target := TargetFor(executorIp.s);
      return exitOk;
    }

    /**
     * `run_once`: the i-th new alert gets planner reply `replies(i)` and SSH
     * outcome `exitOk(i)`; its hash is added after `process_alert` returned True.
     */
    method RunOnce(file: Option<seq<string>>, parse: Parser, replies: nat -> Option<Value>, exitOk: nat -> bool)
      returns (newAlerts: seq<AR.Alert>)
      modifies this
      ensures newAlerts == if file.None? then [] else NewAlerts(file.value, parse, old(processed), digest)
      ensures processed == AfterAlerts(old(processed), newAlerts, replies, exitOk, digest, |newAlerts|)
    {
      newAlerts := GetNewAlerts(file, parse, processed, digest);
      HandleAlerts(newAlerts, replies, exitOk);
    }

    /** The loop of `run_once` over the new alerts. */
    method HandleAlerts(alerts: seq<AR.Alert>, replies: nat -> Option<Value>, exitOk: nat -> bool)
      modifies this
      ensures processed == AfterAlerts(old(processed), alerts, replies, exitOk, digest, |alerts|)
    {
      var i := 0;
      while i < |alerts|
        invariant 0 <= i <= |alerts|
        invariant processed == AfterAlerts(old(processed), alerts, replies, exitOk, digest, i)
      {
        var alertHash := digest(AR.KeyOf(alerts[i]));
        var success := ProcessAlert(alerts[i], replies(i), exitOk(i));
        if success {
          processed := processed + {alertHash};
        }
        i := i + 1;
      }
    }
  }
}
