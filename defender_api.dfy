/**
 * The defender HTTP service: `/alerts` appends an enriched alert to the
 * alert file, and `/plan` answers with a rule-based remediation plan chosen
 * from the alert text. Request plumbing, the request id and the creation
 * time are inputs; the plan wording is represented by the attack kind its
 * template is chosen for.
 */
module DefenderApi {
  import opened Wrappers
  import opened Text
  import opened Json
  import IpScan

  const FALLBACK_MODEL: string := "fallback_rules_v1.0"

  datatype AttackKind = PortScan | Ddos | BruteForce | Generic

  datatype Plan = Plan(executorHostIp: string, kind: AttackKind, sourceIp: string, targetIp: string,
                       model: string, requestId: string, created: string)

  /** Source and target addresses chosen from the dotted quads of the alert, in order. */
  function PickIps(ips: seq<string>): (r: (string, string))
    ensures |ips| == 0 ==> r == ("unknown", "unknown")
    ensures |ips| == 1 ==> r == (ips[0], ips[0])
    ensures |ips| >= 2 ==> r == (ips[0], ips[1])
  {
    var source := if |ips| > 0 then ips[0] else "unknown";
    var target := if |ips| > 1 then ips[1] else if |ips| > 0 then ips[0] else "unknown";
    (source, target)
  }

  /** Both chosen addresses are dotted quads found in the text, or "unknown". */
  lemma PickedIpsAreQuads(text: string)
    ensures var (s, t) := PickIps(IpScan.FindIPs(text));
      (s == "unknown" || IpScan.IsQuad(s)) && (t == "unknown" || IpScan.IsQuad(t))
  {
  }

  predicate IsPortScan(lower: string) {
    Contains(lower, "vertical port scan") || Contains(lower, "horizontal port scan")
  }

  predicate IsDdos(lower: string) {
    Contains(lower, "ddos") || Contains(lower, "denial of service")
  }

  predicate IsBruteForce(lower: string) {
    Contains(lower, "brute force") || Contains(lower, "password guessing")
  }

  /** The attack kind, by the first rule that matches the lower-cased text. */
  function Classify(lower: string): (k: AttackKind)
    ensures k == PortScan <==> IsPortScan(lower)
    ensures k == Ddos <==> !IsPortScan(lower) && IsDdos(lower)
    ensures k == BruteForce <==> !IsPortScan(lower) && !IsDdos(lower) && IsBruteForce(lower)
    ensures k == Generic <==> !IsPortScan(lower) && !IsDdos(lower) && !IsBruteForce(lower)
  {
    if IsPortScan(lower) then PortScan
    else if IsDdos(lower) then Ddos
    else if IsBruteForce(lower) then BruteForce
    else Generic
  }

  /** A port scan wins over every later rule, for example "ddos" in the same text. */
  lemma PortScanWins(pre: string, post: string)
    ensures Classify(pre + "vertical port scan" + post) == PortScan
  {
    ContainsPrefix("vertical port scan", "vertical port scan");
    ContainsRight(pre, "vertical port scan", "vertical port scan");
    ContainsLeft(pre + "vertical port scan", post, "vertical port scan");
  }

  /**
   * `generate_fallback_plan`: the plan runs on the target host in every
   * branch, and always carries the fallback model name.
   */
  function GenerateFallbackPlan(alertText: string, requestId: string, created: string): (p: Plan)
    ensures p.executorHostIp == p.targetIp
    ensures p.model == FALLBACK_MODEL
    ensures (p.sourceIp, p.targetIp) == PickIps(IpScan.FindIPs(alertText))
    ensures p.kind == Classify(Lower(alertText))
    ensures p.requestId == requestId && p.created == created
  {
    var (source, target) := PickIps(IpScan.FindIPs(alertText));
    Plan(target, Classify(Lower(alertText)), source, target, FALLBACK_MODEL, requestId, created)
  }

  datatype PlanReply = BadRequest | Planned(plan: Plan)

  /** `/plan`: an empty or whitespace-only alert is rejected with 400; otherwise the stripped text is planned. */
  function PlanEndpoint(alert: string, requestId: string, created: string): (r: PlanReply)
    ensures r == BadRequest <==> IsBlank(alert)
    ensures r.Planned? ==> r.plan == GenerateFallbackPlan(Strip(alert), requestId, created)
  {
    StripBlank(alert);
    if alert == [] || Strip(alert) == [] then BadRequest
    else Planned(GenerateFallbackPlan(Strip(alert), requestId, created))
  }

  /**
   * The `/alerts` enrichment: `run_id` and `timestamp` are set only when the
   * alert lacks them; every other field is copied unchanged.
   */
  function Enrich(alert: map<string, Value>, runId: string, now: int): (r: map<string, Value>)
    ensures r.Keys == alert.Keys + {"run_id", "timestamp"}
    ensures forall k :: k in alert ==> r[k] == alert[k]
    ensures "run_id" !in alert ==> r["run_id"] == Str(runId)
    ensures "timestamp" !in alert ==> r["timestamp"] == Num(now)
  {
    var withRun := if "run_id" in alert then alert else alert["run_id" := Str(runId)];
    if "timestamp" in withRun then withRun else withRun["timestamp" := Num(now)]
  }

  /** Enriching twice changes nothing the first enrichment did not. */
  lemma EnrichIdempotent(alert: map<string, Value>, runId: string, now: int, runId2: string, now2: int)
    ensures Enrich(Enrich(alert, runId, now), runId2, now2) == Enrich(alert, runId, now)
  {
  }

  /** `json.dumps` of a value, as written to the alert file. */
  type Dumper = Value -> string

  /** The defender's alert file, as the lines written to it. */
  class AlertStore {
    var lines: seq<string>

    constructor (existing: seq<string>)
      ensures lines == existing
    {
      lines := existing;
    }

    /**
     * `/alerts`: appends the enriched alert as one JSON line and answers
     * "stored" with the service's run id; when the file cannot be written
     * (`writable` false) it answers 500 and the file is unchanged.
     */
    method PostAlert(alert: map<string, Value>, runId: string, now: int, writable: bool, dumps: Dumper)
      returns (status: nat, body: Option<Value>)
      modifies this
      ensures writable ==> status == 200 && lines == old(lines) + [dumps(Obj(Enrich(alert, runId, now)))]
      ensures writable ==> body == Some(Obj(map["status" := Str("stored"), "run_id" := Str(runId)]))
      ensures !writable ==> status == 500 && body == None && lines == old(lines)
    {
      var line := dumps(Obj(Enrich(alert, runId, now)));
      if !writable {
        return 500, None;
      }
      lines := lines + [line];
      status := 200;
      body := Some(Obj(map["status" := Str("stored"), "run_id" := Str(runId)]));
    }
  }
}
