/**
 * `aggregate_results` and `generate_recommendations` of the multi-experiment
 * runner: the per-experiment results (decoded JSON) are folded into a report
 * of outcome counters, status and performance breakdowns and timing totals,
 * and a list of recommendations is derived from the failure rate and the
 * performance breakdown. The report's timestamp is left out; the averages and
 * the failure rate are kept as numerator and denominator.
 */
module RunMultiExperiment {
  import opened Wrappers
  import opened Text
  import opened Json
  import opened Counting

  /** `result.get("pcap_analysis")` is truthy: the result takes part in the counts. */
  predicate Analyzed(r: Value) {
    Truthy(GetOr(r, "pcap_analysis", Null))
  }

  /** `result["pcap_analysis"]`; a value that is not an object reads as `{}`. */
  function Analysis(r: Value): Value {
    Sub(r, "pcap_analysis")
  }

  function StatusOf(r: Value): Value {
    GetOr(Analysis(r), "status", Str("Unknown"))
  }

  function PerformanceOf(r: Value): Value {
    GetOr(Analysis(r), "defender_performance", Str("Unknown"))
  }

  /** `result.get("experiment_summary", {})`. */
  function SummaryOf(r: Value): Value {
    Sub(r, "experiment_summary")
  }

  /** The branch of the performance classification a result takes. */
  datatype Outcome = Failure | Warned | Alerted | Unrated

  /** The first-match classification of a performance text; a value that is not a string matches nothing. */
  function OutcomeOf(p: Value): Outcome {
    if p.Str? && Contains(p.s, "FAILURE") then Failure
    else if p.Str? && (Contains(p.s, "Critical") || Contains(p.s, "Warning")) then Warned
    else if p.Str? && Contains(p.s, "Alert") then Alerted
    else Unrated
  }

  /** The results that take part in the counts, in order. */
  function AnalyzedResults(rs: seq<Value>): (a: seq<Value>)
    ensures |a| <= |rs|
    ensures forall r | r in a :: Analyzed(r)
    decreases |rs|
  {
    if rs == [] then []
    else
      var init := AnalyzedResults(rs[..|rs| - 1]);
      if Analyzed(rs[|rs| - 1]) then init + [rs[|rs| - 1]] else init
  }

  function Statuses(a: seq<Value>): seq<Value> {
    seq(|a|, i requires 0 <= i < |a| => StatusOf(a[i]))
  }

  function Performances(a: seq<Value>): seq<Value> {
    seq(|a|, i requires 0 <= i < |a| => PerformanceOf(a[i]))
  }

  function Outcomes(a: seq<Value>): seq<Outcome> {
    seq(|a|, i requires 0 <= i < |a| => OutcomeOf(PerformanceOf(a[i])))
  }

  /** The values of `key` in the summaries that have it, in order. */
  function SummaryValues(a: seq<Value>, key: string): seq<Value>
    decreases |a|
  {
    if a == [] then []
    else
      var init := SummaryValues(a[..|a| - 1], key);
      match Get(SummaryOf(a[|a| - 1]), key)
      case Some(v) => init + [v]
      case None => init
  }

  /** `sum(...)` over the numbers among `vs`. */
  function NumSum(vs: seq<Value>): int
    decreases |vs|
  {
    if vs == [] then 0
    else NumSum(vs[..|vs| - 1]) + (if vs[|vs| - 1].Num? then vs[|vs| - 1].n else 0)
  }

  /** The aggregated report. `avg_duration_seconds` is `durationTotal / durationCount` (0 when the count is 0) and `failure_rate` is `totalFailures / totalExperiments`. */
  datatype Report = Report(
    totalExperiments: nat, successfulExperiments: nat,
    durationTotal: int, durationCount: nat, totalPcaps: int,
    totalFailures: nat, criticalWarnings: nat, alerts: nat, successfulAttacks: nat,
    statusBreakdown: map<Value, nat>, performanceBreakdown: map<Value, nat>,
    detailedResults: seq<Value>, recommendations: seq<string>)

  /** What the report of a non-empty list of results is. */
  predicate Reports(rs: seq<Value>, rep: Report) {
    var a := AnalyzedResults(rs);
    var os := Outcomes(a);
    && rep.totalExperiments == |rs| && rep.successfulExperiments == |rs|
    && rep.totalFailures == multiset(os)[Failure]
    && rep.successfulAttacks == multiset(os)[Failure]
    && rep.criticalWarnings == multiset(os)[Warned]
    && rep.alerts == multiset(os)[Alerted]
    && rep.statusBreakdown == Tally(Statuses(a))
    && rep.performanceBreakdown == Tally(Performances(a))
    && rep.durationTotal == NumSum(SummaryValues(a, "duration_seconds"))
    && rep.durationCount == |SummaryValues(a, "duration_seconds")|
    && rep.totalPcaps == NumSum(SummaryValues(a, "pcap_count"))
    && rep.detailedResults == rs
    && rep.recommendations == Recommendations(rep.totalFailures, |rs|, rep.performanceBreakdown)
  }

  // ---- generate_recommendations ----

  const HIGH := "HIGH PRIORITY: " + "Defender failure rate > 50%. Consider immediate security rule updates."
  const MEDIUM := "MEDIUM PRIORITY: " + "Defender failure rate > 20%. Review and enhance detection rules."
  const LOW := "LOW PRIORITY: " + "Some attacks succeeded. Consider fine-tuning defender sensitivity."
  const RECON_ADVICE := "Consider " + "implementing early detection for network reconnaissance activities."
  const SCAN_ADVICE := "Port scanning detection is working. " + "Consider implementing automatic blocking."
  const BRUTE_ADVICE := "Brute force detection is working. " + "Ensure automatic IP blocking is enabled."
  const DEFAULT_ADVICE := "Defender " + "appears to be performing well across all test scenarios."

  const RECON_KEY := "Passive - Server Discovered"
  const SCAN_KEY := "Alert - SSH Port Scanned"
  const BRUTE_KEY := "Critical - SSH Brute Force Detected"

  /** The recommendation texts are pairwise different: they differ in their first character. */
  lemma LinesDistinct()
    ensures HIGH[0] == 'H' && MEDIUM[0] == 'M' && LOW[0] == 'L' && DEFAULT_ADVICE[0] == 'D'
    ensures RECON_ADVICE[0] == 'C' && SCAN_ADVICE[0] == 'P' && BRUTE_ADVICE[0] == 'B'
  {
  }

  /** `failures / total > num / den`, with a rate of 0 when `total` is 0. */
  predicate RateAbove(failures: nat, total: nat, num: nat, den: nat) {
    total > 0 && failures * den > num * total
  }

  /** The priority line, chosen by the failure rate. */
  function PriorityLines(failures: nat, total: nat): seq<string> {
    if RateAbove(failures, total, 1, 2) then [HIGH]
    else if RateAbove(failures, total, 1, 5) then [MEDIUM]
    else if RateAbove(failures, total, 0, 1) then [LOW]
    else []
  }

  /** `performance_counts.get(key, 0) > 0`. */
  predicate Seen(perf: map<Value, nat>, key: string) {
    Str(key) in perf && perf[Str(key)] > 0
  }

  function AdviceLines(perf: map<Value, nat>): seq<string> {
    (if Seen(perf, RECON_KEY) then [RECON_ADVICE] else [])
    + (if Seen(perf, SCAN_KEY) then [SCAN_ADVICE] else [])
    + (if Seen(perf, BRUTE_KEY) then [BRUTE_ADVICE] else [])
  }

  function Recommendations(failures: nat, total: nat, perf: map<Value, nat>): (rs: seq<string>)
    ensures rs != []
  {
    var lines := PriorityLines(failures, total) + AdviceLines(perf);
    if lines == [] then [DEFAULT_ADVICE] else lines
  }

  /** `generate_recommendations`: the lines are appended in the order of the tests. */
  method GenerateRecommendations(failures: nat, total: nat, perf: map<Value, nat>) returns (rs: seq<string>)
    ensures rs == Recommendations(failures, total, perf)
  {
    rs := AddPriority([], failures, total);
    rs := AddAdvice(rs, perf);
    if rs == [] {
      rs := rs + [DEFAULT_ADVICE];
    }
  }

  method AddPriority(rs: seq<string>, failures: nat, total: nat) returns (rs': seq<string>)
    ensures rs' == rs + PriorityLines(failures, total)
  {
    rs' := rs;
    if RateAbove(failures, total, 1, 2) {
      rs' := rs' + [HIGH];
    } else if RateAbove(failures, total, 1, 5) {
      rs' := rs' + [MEDIUM];
    } else if RateAbove(failures, total, 0, 1) {
      rs' := rs' + [LOW];
    }
  }

  method AddAdvice(rs: seq<string>, perf: map<Value, nat>) returns (rs': seq<string>)
    ensures rs' == rs + AdviceLines(perf)
  {
    rs' := rs;
    if Seen(perf, RECON_KEY) {
      rs' := rs' + [RECON_ADVICE];
    }
    if Seen(perf, SCAN_KEY) {
      rs' := rs' + [SCAN_ADVICE];
    }
    if Seen(perf, BRUTE_KEY) {
      rs' := rs' + [BRUTE_ADVICE];
    }
  }

  /** Exactly one priority line is given when some attack succeeded, chosen by the rate's band, and it comes first. */
  lemma PriorityBands(failures: nat, total: nat, perf: map<Value, nat>)
    ensures var rs := Recommendations(failures, total, perf);
      && (HIGH in rs <==> total > 0 && 2 * failures > total)
      && (MEDIUM in rs <==> total > 0 && 2 * failures <= total && 5 * failures > total)
      && (LOW in rs <==> total > 0 && 0 < failures && 5 * failures <= total)
      && (total > 0 && failures > 0 ==> rs[0] in {HIGH, MEDIUM, LOW} && |PriorityLines(failures, total)| == 1)
  {
    var rs := Recommendations(failures, total, perf);
    var p, adv := PriorityLines(failures, total), AdviceLines(perf);
    assert forall s | s in adv :: s in {RECON_ADVICE, SCAN_ADVICE, BRUTE_ADVICE};
    LinesDistinct();
    if p + adv != [] {
      assert rs == p + adv;
    }
  }

  /** Each listed performance key with a positive count adds its own advice line. */
  lemma AdviceFollowsBreakdown(failures: nat, total: nat, perf: map<Value, nat>)
    ensures var rs := Recommendations(failures, total, perf);
      && (RECON_ADVICE in rs <==> Seen(perf, RECON_KEY))
      && (SCAN_ADVICE in rs <==> Seen(perf, SCAN_KEY))
      && (BRUTE_ADVICE in rs <==> Seen(perf, BRUTE_KEY))
  {
    var p, adv := PriorityLines(failures, total), AdviceLines(perf);
    assert forall s | s in p :: s in {HIGH, MEDIUM, LOW};
    LinesDistinct();
    if p + adv != [] {
      assert Recommendations(failures, total, perf) == p + adv;
    }
  }

  /** The default message is the only recommendation exactly when nothing else applies. */
  lemma DefaultOnlyWhenQuiet(failures: nat, total: nat, perf: map<Value, nat>)
    ensures var rs := Recommendations(failures, total, perf);
      (rs == [DEFAULT_ADVICE]) <==> (!RateAbove(failures, total, 0, 1) && !Seen(perf, RECON_KEY)
                                    && !Seen(perf, SCAN_KEY) && !Seen(perf, BRUTE_KEY))
  {
    var p, adv := PriorityLines(failures, total), AdviceLines(perf);
    LinesDistinct();
    if p + adv != [] {
      assert (p + adv)[0] != DEFAULT_ADVICE;
    }
  }

  // ---- aggregate_results ----

  /** The counters and lists that `aggregate_results` keeps while it reads the results. */
  datatype Tallies = Tallies(
    failures: nat, warnings: nat, alerts: nat, attacks: nat,
    statusCounts: map<Value, nat>, performanceCounts: map<Value, nat>,
    timings: seq<Value>, pcapCounts: seq<Value>)

  /** The tallies of the analyzed results `a`. */
  function TalliesOf(a: seq<Value>): Tallies {
    var os := multiset(Outcomes(a));
    Tallies(os[Failure], os[Warned], os[Alerted], os[Failure],
      Tally(Statuses(a)), Tally(Performances(a)),
      SummaryValues(a, "duration_seconds"), SummaryValues(a, "pcap_count"))
  }

  /** `aggregate_results`: `None` is the `{"error": ...}` answer to an empty list. */
  method AggregateResults(results: seq<Value>) returns (report: Option<Report>)
    ensures results == [] <==> report.None?
    ensures report.Some? ==> Reports(results, report.value)
  {
    if results == [] {
      return None;
    }
    var t := CountResults(results);
    var recommendations := GenerateRecommendations(t.failures, |results|, t.performanceCounts);
    report := Some(Report(
      |results|, |results|, NumSum(t.timings), |t.timings|, NumSum(t.pcapCounts),
      t.failures, t.warnings, t.alerts, t.attacks, t.statusCounts, t.performanceCounts, results,
      recommendations));
  }

  /** The loop of `aggregate_results` over the results. */
  method CountResults(results: seq<Value>) returns (t: Tallies)
    ensures t == TalliesOf(AnalyzedResults(results))
  {
    ghost var a: seq<Value> := [];
    t := Tallies(0, 0, 0, 0, map[], map[], [], []);
    var i := 0;
    while i < |results|
      invariant 0 <= i <= |results|
      invariant a == AnalyzedResults(results[..i])
      invariant t == TalliesOf(a)
    {
      assert results[..i + 1][..i] == results[..i];
      var result := results[i];
      if Analyzed(result) {
        t := CountResult(result, t);
        TalliesStep(a, result);
        a := a + [result];
      }
      i := i + 1;
    }
    assert results[..i] == results;
  }

  /** The body of the loop for a result that has a pcap analysis. */
  method CountResult(result: Value, t: Tallies) returns (t': Tallies)
    ensures t' == AddResult(t, result)
  {
    var status := StatusOf(result);
    var performance := PerformanceOf(result);
    t' := t.(statusCounts := Bump(t.statusCounts, status),
             performanceCounts := Bump(t.performanceCounts, performance));
    t' := CountOutcome(t', OutcomeOf(performance));
    t' := CollectSummary(t', SummaryOf(result));
  }

  /** The first-match branch on the performance text. */
  method CountOutcome(t: Tallies, o: Outcome) returns (t': Tallies)
    ensures t' == OutcomeAdded(t, o)
  {
    match o {
      case Failure => t' := t.(failures := t.failures + 1, attacks := t.attacks + 1);
      case Warned => t' := t.(warnings := t.warnings + 1);
      case Alerted => t' := t.(alerts := t.alerts + 1);
      case Unrated => t' := t;
    }
  }

  /** The `duration_seconds` and `pcap_count` values of the experiment summary, when present. */
  method CollectSummary(t: Tallies, summary: Value) returns (t': Tallies)
    ensures t' == SummaryAdded(t, summary)
  {
    t' := t;
    var d := Get(summary, "duration_seconds");
    if d.Some? {
      t' := t'.(timings := t'.timings + [d.value]);
    }
    var c := Get(summary, "pcap_count");
    if c.Some? {
      t' := t'.(pcapCounts := t'.pcapCounts + [c.value]);
    }
  }

  function OutcomeAdded(t: Tallies, o: Outcome): Tallies {
    t.(failures := t.failures + (if o == Failure then 1 else 0),
       warnings := t.warnings + (if o == Warned then 1 else 0),
       alerts := t.alerts + (if o == Alerted then 1 else 0),
       attacks := t.attacks + (if o == Failure then 1 else 0))
  }

  function SummaryAdded(t: Tallies, summary: Value): Tallies {
    var d := Get(summary, "duration_seconds");
    var c := Get(summary, "pcap_count");
    t.(timings := t.timings + (if d.Some? then [d.value] else []),
       pcapCounts := t.pcapCounts + (if c.Some? then [c.value] else []))
  }

  /** What one analyzed result adds to the tallies. */
  function AddResult(t: Tallies, r: Value): Tallies {
    var t1 := t.(statusCounts := Bump(t.statusCounts, StatusOf(r)),
                 performanceCounts := Bump(t.performanceCounts, PerformanceOf(r)));
    SummaryAdded(OutcomeAdded(t1, OutcomeOf(PerformanceOf(r))), SummaryOf(r))
  }

  lemma TalliesStep(a: seq<Value>, r: Value)
    ensures TalliesOf(a + [r]) == AddResult(TalliesOf(a), r)
  {
    AnalyzedStep(a, r);
    SummaryStep(a, r, "duration_seconds");
    SummaryStep(a, r, "pcap_count");
  }

  /** How the derived sequences grow when one more result is analyzed. */
  lemma AnalyzedStep(a: seq<Value>, r: Value)
    ensures Statuses(a + [r]) == Statuses(a) + [StatusOf(r)]
    ensures Performances(a + [r]) == Performances(a) + [PerformanceOf(r)]
    ensures Outcomes(a + [r]) == Outcomes(a) + [OutcomeOf(PerformanceOf(r))]
    ensures multiset(Outcomes(a + [r])) == multiset(Outcomes(a)) + multiset{OutcomeOf(PerformanceOf(r))}
  {
  }

  lemma SummaryStep(a: seq<Value>, r: Value, key: string)
    ensures SummaryValues(a + [r], key) ==
      SummaryValues(a, key) + (match Get(SummaryOf(r), key) case Some(v) => [v] case None => [])
  {
    assert (a + [r])[..|a|] == a;
  }

  // ---- properties of the report ----

  /** Every analyzed result falls in exactly one outcome. */
  lemma {:induction false} OutcomesPartition(a: seq<Value>)
    ensures multiset(Outcomes(a))[Failure] + multiset(Outcomes(a))[Warned]
      + multiset(Outcomes(a))[Alerted] + multiset(Outcomes(a))[Unrated] == |a|
    decreases |a|
  {
    if a != [] {
      var init := a[..|a| - 1];
      OutcomesPartition(init);
      SplitLast(a);
      AnalyzedStep(init, a[|a| - 1]);
    }
  }

  /** The counters cover only analyzed results, while the failure rate's denominator is every result. */
  lemma ReportCounts(rs: seq<Value>, rep: Report)
    requires Reports(rs, rep)
    ensures rep.totalFailures == rep.successfulAttacks
    ensures rep.totalFailures + rep.criticalWarnings + rep.alerts <= |AnalyzedResults(rs)| <= rep.totalExperiments
    ensures rep.totalExperiments == |rs|
  {
    OutcomesPartition(AnalyzedResults(rs));
  }

  /** Each status and performance count is its number of occurrences among the analyzed results. */
  lemma BreakdownCounts(rs: seq<Value>, rep: Report, v: Value)
    requires Reports(rs, rep)
    ensures (if v in rep.statusBreakdown then rep.statusBreakdown[v] else 0)
      == multiset(Statuses(AnalyzedResults(rs)))[v]
    ensures (if v in rep.performanceBreakdown then rep.performanceBreakdown[v] else 0)
      == multiset(Performances(AnalyzedResults(rs)))[v]
  {
    CountOrZero(Statuses(AnalyzedResults(rs)), v);
    CountOrZero(Performances(AnalyzedResults(rs)), v);
  }

  /** A result without a pcap analysis changes nothing in the counts. */
  lemma {:induction false} SkippedResult(a: seq<Value>, r: Value, b: seq<Value>)
    requires !Analyzed(r)
    ensures AnalyzedResults(a + [r] + b) == AnalyzedResults(a + b)
    decreases |b|
  {
    if b == [] {
      assert (a + [r])[..|a|] == a;
      assert a + [r] + b == a + [r];
      assert a + b == a;
    } else {
      var b' := b[..|b| - 1];
      assert (a + [r] + b)[..|a + [r] + b| - 1] == a + [r] + b';
      assert (a + b)[..|a + b| - 1] == a + b';
      SkippedResult(a, r, b');
    }
  }

  /** First match: a performance naming FAILURE is a failure whatever else it names. */
  lemma FailureFirst(p: string)
    requires Contains(p, "FAILURE")
    ensures OutcomeOf(Str(p)) == Failure
  {
  }
}
