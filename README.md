# Trident core, modelled in Dafny

Trident is a cyber range. An attacker agent works against a lab server, a
SLIPS-based defender watches the traffic, and experiment scripts fold the logs
into metrics. This project models the deterministic core of that system and
proves properties of the model:

- the defender's alert pipeline:
  - the pcap watcher and its libpcap record walk;
  - the alert forwarder's per-file offset table;
  - the defender API's fallback planner and alert enrichment;
  - the automated responder and its legacy predecessor;
  - the manual "latest alert" picker;
- the HTTP analyzer's detection state machines;
- the offline SSH handshake analysis;
- the OpenCode output normalisation of the attacker and the compromised host;
- the database enlargement with referential integrity;
- the GHOSTS timeline builders of the John Scott NPC and the shell quoting their commands go through;
- the experiment runners' log folds: the Flask login log, the attacker and benign-agent timelines, and the multi-experiment aggregate with its recommendations;
- the experiment analyses:
  - the OpenCode defender's action types and frequency counts;
  - the expanded command list of a run;
  - the attacker command tags, notable-run picks and unusual-action counts;
  - the generic flow summary;
  - the strict notable-actions report;
  - the stage times behind the result plots.

One Dafny module models one source file. A few shared modules hold the
Python built-ins the scripts rely on:

- `Wrappers`: `Option`, `Min` and `Max`.
- `Text`: the `str` methods as operations on `seq<char>`: `strip`,
  `lower` (ASCII), `split`, `replace`, `in`, `startswith`, `isdigit`,
  `str(n)`, the `\s+` collapse, and the regex classes `\s`, `\w` and the word boundary `\b` (ASCII word characters).
- `Json`: the decoded JSON value, `.get` with defaults, and Python truthiness.
- `IpScan`: the `\d+\.\d+\.\d+\.\d+` scanner.
- `Opencode`: the OpenCode JSON event fields both loggers read, and what each event type adds to the metrics.
- `Jsonl`: reading a JSON-lines file, skipping blank and undecodable lines.
- `Counting`: `collections.Counter` as a tally of a sequence, and counts of the positions that satisfy a test.

Each regular expression is modelled in the module that uses it, as a matcher for just the fragment it needs: the lab-subnet patterns of `AnalyzeUnusualActions` (literal characters and `.`), the `.*` and `\s*` patterns of `GenerateNotableStrict`, and the URL pattern of `PlotResults`. Where the source doubles a backslash in a raw string, the pattern is modelled as written, and the single-backslash pattern it evidently means sits beside it (see "## Findings").

Decoding JSON is a parameter `parse: string -> Option<Value>`, where `None`
stands for a decode error. Hashing and the wall clock are parameters too. So
are the outcomes of network calls and subprocesses, given as functions from
the attempt number to the outcome.

## Model

| member | source | states |
|---|---|---|
| AutoResponder.IsHighConfidenceAlert | images/slips_defender/defender/auto_responder.py:213-253 | the loop over the 12 patterns agrees with the reference filter `Actionable`: noise notes and small note-carrying alerts are rejected, otherwise some pattern occurs in the lower-cased raw, description and threat-level text; a non-string field raises |
| AutoResponder.ConfidenceInRawIsActionable | images/slips_defender/defender/auto_responder.py:226-253 | "confidence: 0.9" in the lower-cased raw text makes an alert with no note actionable |
| AutoResponder.ActionableMeans | images/slips_defender/defender/auto_responder.py:213-253 | the confidence filter rejects noise notes in any letter case and note-carrying alerts of three fields or fewer, accepts only alerts whose lower-cased raw, description and threat-level text holds a pattern, and raises exactly when a field it reads is not a string |
| AutoResponder.HashDependsOnKeyFieldsOnly | images/slips_defender/defender/auto_responder.py:169-180 | alerts that agree on sourceip, destip, attackid, proto and timestamp (missing read as "") get the same hash, whatever their other fields |
| AutoResponder.KeptLineQualifies | images/slips_defender/defender/auto_responder.py:194-206 | a kept line is non-blank once stripped, decodes to an object, is actionable and its hash is not processed |
| AutoResponder.NewAlertsSound | images/slips_defender/defender/auto_responder.py:182-211 | every new alert is actionable, unprocessed, and comes from some line of the file |
| AutoResponder.NewAlertsAppend | images/slips_defender/defender/auto_responder.py:190-208 | scanning is a fold: the alerts of `xs + ys` are those of `xs` followed by those of `ys` when nothing in `xs` raises |
| AutoResponder.StopDropsRest | images/slips_defender/defender/auto_responder.py:190-211 | a line whose filter raises ends the scan: the alerts of the lines before it are kept, and it and every line after it add nothing |
| AutoResponder.ReadLine | images/slips_defender/defender/auto_responder.py:193-206 | one line's outcome (skip, keep, or stop on a raise), as the reference `LineOutcomeOf` says |
| AutoResponder.GetNewAlerts | images/slips_defender/defender/auto_responder.py:182-211 | the loop returns the reference alert list of the file, and nothing for a missing file |
| AutoResponder.FirstStamp | images/slips_defender/defender/auto_responder.py:276-278 | the leftmost `YYYY-MM-DDTHH:MM:SS` stamp of the raw text, or none exactly when no position matches |
| AutoResponder.PlannerFieldsOf | images/slips_defender/defender/auto_responder.py:255-285 | the fields of the planner text: the alert's own addresses unless raw is non-empty and either is "unknown"; then the first two IPs of raw when it has two, with raw as the description; a non-string raw then raises |
| AutoResponder.FormatShape | images/slips_defender/defender/auto_responder.py:284-291 | the planner text starts with "{timestamp} {source} {attack} ({proto}) targeting {dest}" and is longer exactly when the description is non-empty |
| AutoResponder.DetermineTargetSshInfo | images/slips_defender/defender/auto_responder.py:304-315 | never None; the compromised host exactly for the "172.30.0." prefix, the server for every other address |
| AutoResponder.ExecutePlanWithOpencode | images/slips_defender/defender/auto_responder.py:378-486 | without an SSH key nothing is attempted; otherwise at most `maxRetries` attempts, stopping at the first success; the waits are 10, 20, ... seconds and none follows the last attempt; failure only when all attempts failed |
| AutoResponder.ValidatePlan | images/slips_defender/defender/auto_responder.py:549-563 | a reply is usable exactly when it is a non-empty object with a non-empty plan and executor IP |
| AutoResponder.ProcessAlert | images/slips_defender/defender/auto_responder.py:519-598 | success exactly when logging does not raise, the alert formats, the reply validates with a string executor IP, and some SSH attempt succeeds |
| AutoResponder.SucceededHashes | images/slips_defender/defender/auto_responder.py:611-628 | the hashes of exactly the handled alerts |
| AutoResponder.CountHandled | images/slips_defender/defender/auto_responder.py:611-628 | the number of handled alerts, zero exactly when none was handled |
| AutoResponder.MarkHandled | images/slips_defender/defender/auto_responder.py:611-628 | the loop adds exactly the hashes of the handled alerts and counts them |
| AutoResponder.Responder.constructor | images/slips_defender/defender/auto_responder.py:145-155 | the processed set is the stored hashes, or empty when there is no state file |
| AutoResponder.Responder.SaveProcessedAlerts | images/slips_defender/defender/auto_responder.py:157-167 | the state file holds the current processed set |
| AutoResponder.Responder.RunOnce | images/slips_defender/defender/auto_responder.py:600-631 | only handled alerts are added to the processed set, which only grows; it is saved exactly when at least one alert succeeded |
| AutoResponderLegacy.ShouldRespond | images/slips_defender/defender/auto_responder_legacy.py:93-105 | respond exactly when the lower-cased threat level is medium, high or critical and the lower-cased note does not contain "heartbeat"; a non-string field raises |
| AutoResponderLegacy.HeartbeatNeverResponds | images/slips_defender/defender/auto_responder_legacy.py:100-105 | a heartbeat alert never gets a response |
| AutoResponderLegacy.MaxOf | images/slips_defender/defender/auto_responder_legacy.py:122-126 | the lexicographically greatest key of a non-empty set |
| AutoResponderLegacy.TopN | images/slips_defender/defender/auto_responder_legacy.py:122-126 | the `n` lexicographically greatest keys: a subset of that size, every kept key greater than every dropped one |
| AutoResponderLegacy.TopRankedUnique | images/slips_defender/defender/auto_responder_legacy.py:122-126 | two equally large subsets that both rank above the rest of the set are equal, so the truncation is well defined |
| AutoResponderLegacy.MaxIn | images/slips_defender/defender/auto_responder_legacy.py:122-126 | the scan finds the greatest key |
| AutoResponderLegacy.TopEntries | images/slips_defender/defender/auto_responder_legacy.py:122-126 | sorting descending and keeping the first `n` keeps the top `n` keys |
| AutoResponderLegacy.InsertKey | images/slips_defender/defender/auto_responder_legacy.py:114-127 | an absent key is inserted; when the set then exceeds 100 it is cut to 100 keys, otherwise it grows by exactly the key |
| AutoResponderLegacy.NewAlertsSound | images/slips_defender/defender/auto_responder_legacy.py:143-166 | every new alert decodes from some non-blank line and its hash is not processed |
| AutoResponderLegacy.NewAlertsComplete | images/slips_defender/defender/auto_responder_legacy.py:143-166 | every such line's alert is returned when no line stops the scan |
| AutoResponderLegacy.GetNewAlerts | images/slips_defender/defender/auto_responder_legacy.py:143-166 | the loop returns the reference alert list, and nothing for a missing file |
| AutoResponderLegacy.TargetFor | images/slips_defender/defender/auto_responder_legacy.py:197-202 | the lab server exactly for 172.31.0.10, 127.0.0.1 or the "172.31." prefix, the compromised host otherwise |
| AutoResponderLegacy.TargetsAgreeOnLabSubnets | images/slips_defender/defender/auto_responder_legacy.py:197-202 | on the two lab subnets the legacy and current target choices agree |
| AutoResponderLegacy.TargetsDisagreeOffSubnet | images/slips_defender/defender/auto_responder_legacy.py:197-202 | off the lab subnets the two choices differ, for example on 172.30.1.1 |
| AutoResponderLegacy.SkippedAlertIsMarked | images/slips_defender/defender/auto_responder_legacy.py:258-260 | an alert that needs no response is still marked processed by `run_once` |
| AutoResponderLegacy.EmptyPlanIsRetried | images/slips_defender/defender/auto_responder_legacy.py:279-284 | an empty plan fails, and the alert is not marked processed |
| AutoResponderLegacy.AfterAlertsGrowsBelowCap | images/slips_defender/defender/auto_responder_legacy.py:302-326 | while below the cap, the shared set only grows, by at most two keys per alert |
| AutoResponderLegacy.LegacyResponder.constructor | images/slips_defender/defender/auto_responder_legacy.py:80-86 | the processed set always starts empty |
| AutoResponderLegacy.LegacyResponder.IsRepeatAlert | images/slips_defender/defender/auto_responder_legacy.py:107-129 | always answers "not a repeat" and inserts the repeat key |
| AutoResponderLegacy.LegacyResponder.ProcessAlert | images/slips_defender/defender/auto_responder_legacy.py:252-300 | success as `Succeeds` states; the repeat key is inserted exactly for alerts that need a response |
| AutoResponderLegacy.LegacyResponder.RunOnce | images/slips_defender/defender/auto_responder_legacy.py:302-326 | handles the new alerts in order; the set afterwards is the reference fold over them |
| AutoResponderLegacy.LegacyResponder.HandleAlerts | images/slips_defender/defender/auto_responder_legacy.py:310-324 | the loop computes the reference fold |
| DefenderApi.PickIps | images/slips_defender/defender_api.py:66-68 | source is the first match or "unknown"; target the second, else the first, else "unknown" |
| DefenderApi.PickedIpsAreQuads | images/slips_defender/defender_api.py:66-68 | both chosen addresses are dotted quads or "unknown" |
| DefenderApi.Classify | images/slips_defender/defender_api.py:71-170 | first match in the order port scan, denial of service, brute force, generic; each kind exactly when the earlier tests fail and its own holds |
| DefenderApi.PortScanWins | images/slips_defender/defender_api.py:71-73 | a port scan phrase wins whatever else the text says |
| DefenderApi.GenerateFallbackPlan | images/slips_defender/defender_api.py:58-178 | the executor is the target in every branch, the model is "fallback_rules_v1.0", the addresses are the picked ones and the kind is the classification of the lower-cased text |
| DefenderApi.PlanEndpoint | images/slips_defender/defender_api.py:181-192 | 400 exactly for an empty or whitespace-only alert; otherwise the plan of the stripped text |
| DefenderApi.Enrich | images/slips_defender/defender_api.py:44-47 | run_id and timestamp are added only when absent; every existing field is kept unchanged |
| DefenderApi.EnrichIdempotent | images/slips_defender/defender_api.py:44-47 | enriching an enriched alert changes nothing |
| DefenderApi.AlertStore.constructor | images/slips_defender/defender_api.py:42-55 | the store holds the existing alert lines |
| DefenderApi.AlertStore.PostAlert | images/slips_defender/defender_api.py:42-55 | a writable file gets exactly the enriched alert appended and the reply is "stored" with the run id; otherwise 500 and the file is unchanged |
| WatchPcaps.SuffixStart | images/slips_defender/watch_pcaps.py:53-54 | where `Path.suffix` starts: the last dot that is neither the first nor the last character |
| WatchPcaps.LastDot | images/slips_defender/watch_pcaps.py:53-54 | the last dot before a position, or none |
| WatchPcaps.GzSuffix | images/slips_defender/watch_pcaps.py:53-54 | the suffix is ".gz" exactly when the name is longer than ".gz" and ends with it |
| WatchPcaps.EligibleCheck | images/slips_defender/watch_pcaps.py:42-57 | the checks run in the order skip_active, skip_prefix, not_file, gzip, empty; eligible with no reason exactly when none applies |
| WatchPcaps.RunMarkersFresh | images/slips_defender/watch_pcaps.py:146-188 | a poll runs only files whose marker is not processed, and never the same marker twice |
| WatchPcaps.Watcher.constructor | images/slips_defender/watch_pcaps.py:131 | the processed set starts empty |
| WatchPcaps.Watcher.Poll | images/slips_defender/watch_pcaps.py:144-188 | the eligible, unprocessed files run in order, and each marker is added after a success, a timeout or a failure alike |
| WatchPcaps.Bounds | images/slips_defender/watch_pcaps.py:72-105 | no bounds below 24 bytes or with an unknown magic; otherwise the first and last timestamps of the record walk |
| WatchPcaps.NoHeaderNoBounds | images/slips_defender/watch_pcaps.py:89-105 | a file with no complete record header has no bounds |
| WatchPcaps.TruncatedRecordCounts | images/slips_defender/watch_pcaps.py:96-102 | a first record that runs past the end still gives its timestamp as both bounds |
| WatchPcaps.WalkLength | images/slips_defender/watch_pcaps.py:89-102 | the walk reads at most one header per 16 bytes after the offset |
| WatchPcaps.PcapBounds | images/slips_defender/watch_pcaps.py:72-105 | the header checks and the record loop give exactly the reference bounds: none below 24 bytes or for an unknown magic, else the first and last record timestamps |
| WatchPcaps.ReadHeader | images/slips_defender/watch_pcaps.py:93-100 | one header read: its timestamp, and the next offset past its 16 bytes and included length; the bounds from here merge this header with the bounds from the next record |
| WatchPcaps.WalkHeaders | images/slips_defender/watch_pcaps.py:89-105 | the loop keeps the first and the latest timestamp of the walk |
| WatchPcaps.Latest | images/slips_defender/watch_pcaps.py:119 | a candidate with the greatest mtime |
| WatchPcaps.Candidates | images/slips_defender/watch_pcaps.py:115-116 | exactly the directories named after the pcap plus "_" |
| WatchPcaps.RenameOutputDir | images/slips_defender/watch_pcaps.py:108-127 | never renames onto an existing name; the new name is the stem with both formatted bounds; the renamed directory is a candidate |
| ForwardAlerts.Payload | images/slips_defender/forward_alerts.py:54-57 | the decoded value, or `{"raw": line, "run_id": RUN_ID}` for a line that is not JSON |
| ForwardAlerts.BlankLinesPostNothing | images/slips_defender/forward_alerts.py:51-53 | blank lines post nothing |
| ForwardAlerts.FirstFailure | images/slips_defender/forward_alerts.py:58-60 | the index of the first failing post, or the count when none fails |
| ForwardAlerts.PostLines | images/slips_defender/forward_alerts.py:49-60 | the posts are the payloads in order, up to and including the first failure; success exactly when none failed |
| ForwardAlerts.PayloadsPrefix | images/slips_defender/forward_alerts.py:50-57 | the payloads of a prefix of the lines are a prefix of the payloads |
| ForwardAlerts.Forwarder.constructor | images/slips_defender/forward_alerts.py:33 | the offset table starts empty |
| ForwardAlerts.Forwarder.ForwardFile | images/slips_defender/forward_alerts.py:35-66 | a shrunken file is read from 0, a file whose size equals the offset is skipped, and the offset moves to the end only if every post succeeded, otherwise back to the start of the pass |
| SendAlertToPlanner.Kept | images/slips_defender/scripts/send_alert_to_planner.py:99-111 | every kept line qualifies |
| SendAlertToPlanner.KeptEmpty | images/slips_defender/scripts/send_alert_to_planner.py:113-114 | nothing is kept exactly when no line qualifies |
| SendAlertToPlanner.KeptLast | images/slips_defender/scripts/send_alert_to_planner.py:116-117 | the last kept line is a qualifying line with no qualifying line after it |
| SendAlertToPlanner.LatestOf | images/slips_defender/scripts/send_alert_to_planner.py:94-117 | None exactly when no stripped line qualifies; otherwise the last qualifying stripped line, which is never JSON and never a heartbeat line |
| SendAlertToPlanner.LatestAlert | images/slips_defender/scripts/send_alert_to_planner.py:94-121 | the loop returns `LatestOf` the stripped lines, and None when the file cannot be read |
| HttpAnalyzer.Since | images/slips_defender/patches/http_analyzer/http_analyzer.py:166-171 | keeps, in order, exactly the entries stamped after the cutoff |
| HttpAnalyzer.SinceMember | images/slips_defender/patches/http_analyzer/http_analyzer.py:166-171 | an entry survives exactly when it was there and is newer than the cutoff |
| HttpAnalyzer.SinceAppend | images/slips_defender/patches/http_analyzer/http_analyzer.py:163-171 | appending then filtering is filtering each part, so old entries never reorder around the new one |
| HttpAnalyzer.SinceLater | images/slips_defender/patches/http_analyzer/http_analyzer.py:484-488 | filtering at a later cutoff after an earlier one equals filtering at the later one |
| HttpAnalyzer.SinceAllRecent | images/slips_defender/patches/http_analyzer/http_analyzer.py:166-171 | a list of entries all newer than the cutoff is unchanged |
| HttpAnalyzer.ExecutableMimeIn | images/slips_defender/patches/http_analyzer/http_analyzer.py:87-99 | true exactly when some response MIME type is one of the nine executable types; an empty list never is |
| HttpAnalyzer.SuspiciousFrom | images/slips_defender/patches/http_analyzer/http_analyzer.py:101-117 | true exactly when the lower-cased user agent contains some lower-cased pattern of the five |
| HttpAnalyzer.PbIsSuspicious | images/slips_defender/patches/http_analyzer/http_analyzer.py:104-116 | any user agent containing "pb", in any case, is suspicious |
| HttpAnalyzer.IsPastebinDownload | images/slips_defender/patches/http_analyzer/http_analyzer.py:363-384 | true exactly when the host contains "pastebin", some fuid is not "-", and a response body length is present and above the threshold |
| HttpAnalyzer.PathOf | images/slips_defender/patches/http_analyzer/http_analyzer.py:139-140 | the lower-cased URI up to, not including, its first "?" |
| HttpAnalyzer.QueryIgnored | images/slips_defender/patches/http_analyzer/http_analyzer.py:139-140 | a query string never changes the path |
| HttpAnalyzer.LoginPathFamily | images/slips_defender/patches/http_analyzer/http_analyzer.py:143-148 | a listed path, anything below it and anything ending with it is a login path |
| HttpAnalyzer.WindowContents | images/slips_defender/patches/http_analyzer/http_analyzer.py:159-171 | the window holds only attempts newer than now - 300, every such earlier attempt, at most one entry more than before, and ends with this attempt when it is recent |
| HttpAnalyzer.FirstHostFrom | images/slips_defender/patches/http_analyzer/http_analyzer.py:209-216 | the first listed host, in list order, that the flow's host contains, or none when none does |
| HttpAnalyzer.CleanedContents | images/slips_defender/patches/http_analyzer/http_analyzer.py:473-497 | after a cleanup no server is empty, every timestamp is younger than an hour, and every younger timestamp survives |
| HttpAnalyzer.CleanedLater | images/slips_defender/patches/http_analyzer/http_analyzer.py:473-497 | a cleanup followed by a later one equals the later one alone |
| HttpAnalyzer.Analyzer.constructor | images/slips_defender/patches/http_analyzer/http_analyzer.py:38-79 | all three tables start empty and the last cleanup is the start time |
| HttpAnalyzer.Analyzer.CheckPasswordGuessing | images/slips_defender/patches/http_analyzer/http_analyzer.py:119-184 | anything but a POST to a login path changes nothing; otherwise the window after this attempt is stored, or, when it holds 10 or more, its uids are reported and the list is cleared; every stored window stays below 10 |
| HttpAnalyzer.Analyzer.CheckMultipleEmptyConnections | images/slips_defender/patches/http_analyzer/http_analyzer.py:186-230 | only an empty connection to "/" on port 80 to a listed host is counted, under the first listed host it contains; the fourth one reports all four uids and resets that counter |
| HttpAnalyzer.Analyzer.CountEmptyConnection | images/slips_defender/patches/http_analyzer/http_analyzer.py:218-230 | the flow is appended under its host; detection happens exactly when the host already held three flows, and then the uids of all four are reported and the host's list is emptied; the counter table stays below the threshold everywhere |
| HttpAnalyzer.Analyzer.CleanRecognizedFlows | images/slips_defender/patches/http_analyzer/http_analyzer.py:473-501 | the loop leaves exactly the cleaned table |
| HttpAnalyzer.Analyzer.RecordRecognizedFlow | images/slips_defender/patches/http_analyzer/http_analyzer.py:438-501 | only a GET with address and port records its time under that server; more than 600 seconds after the last cleanup the table is cleaned and the cleanup time moves to now; no server is ever left empty |
| HttpAnalyzer.Analyzer.HandleHttp | images/slips_defender/patches/http_analyzer/http_analyzer.py:389-421 | the evidence set for a flow is the reference list `FlowEvidence` against the tables before the flow, and the login-attempt and empty-connection tables become the ones after it: a login POST stores its window or clears it on detection, an empty connection to a listed host is counted or clears that host on detection |
| HttpAnalyzer.FlowEvidenceMeans | images/slips_defender/patches/http_analyzer/http_analyzer.py:389-421 | each of the suspicious user agent, executable MIME type and pastebin evidence is set exactly when its detector fires; password-guessing and multiple-empty-connections evidence is set exactly on detection, once, with the window's or the host's uids; the HTTP-traffic evidence always comes last |
| HttpAnalyzer.Analyzer.RaisePasswordGuessing | images/slips_defender/patches/http_analyzer/http_analyzer.py:119-184 | the password-guessing check sets one evidence item, with the window's uids and size, exactly on detection, and leaves the login-attempt table after the flow |
| HttpAnalyzer.Analyzer.RaiseEmptyConnections | images/slips_defender/patches/http_analyzer/http_analyzer.py:186-230 | the empty-connections check sets one evidence item, with the host's four uids, exactly on detection, and leaves the counter table after the flow |
| HttpAnalyzer.GuessingOutcome | images/slips_defender/patches/http_analyzer/http_analyzer.py:119-184 | the outcome the password-guessing check promises is the table after the flow and the evidence of the window, as the table-level definitions state them |
| HttpAnalyzer.EmptyOutcome | images/slips_defender/patches/http_analyzer/http_analyzer.py:186-230 | the outcome the empty-connections check promises is the counter table after the flow and the evidence of the host, as the table-level definitions state them |
| Opencode.EffectOf | images/compromised/db_admin_logger.py:122-134 | an event's contribution by the if/elif chain on its type; a text part counts only when non-empty |
| Opencode.ErrorExactly | images/compromised/db_admin_logger.py:133-134 | although its branch comes last, the error branch takes exactly the events whose lower-cased type is "error" |
| DbAdminLogger.KindOf | images/compromised/db_admin_logger.py:115-140 | a line is blank when stripping leaves nothing, an event when the stripped line decodes, and otherwise a Bash line exactly when the unstripped line contains "|  Bash " |
| DbAdminLogger.FirstPlainIsFirst | images/compromised/db_admin_logger.py:139-140 | the final output candidate is the first 500 characters of the first plain line, and absent exactly when there is no plain line |
| DbAdminLogger.ErrorsExact | images/compromised/db_admin_logger.py:133-134 | `errors` holds exactly the decoded events whose lower-cased type is "error" |
| DbAdminLogger.LlmCallsEstimate | images/compromised/db_admin_logger.py:142-143 | LLM calls are the step_start count when positive; with none, Bash lines give max(1, count // 2); zero exactly when there is neither |
| DbAdminLogger.FinalOutputPresent | images/compromised/db_admin_logger.py:145-148 | a final output exists exactly when stdout is non-empty, and it is never longer than 500 characters |
| DbAdminLogger.ReadLine | images/compromised/db_admin_logger.py:115-140 | one loop pass extends each accumulator as the reference folds do for one more line |
| DbAdminLogger.CalculateMetrics | images/compromised/db_admin_logger.py:106-155 | the loop and its fix-ups compute `MetricsOf` of the text |
| DbAdminLogger.Entries | images/compromised/db_admin_logger.py:188-216 | one entry per non-blank line, all stamped with the first 8 characters of the execution id; OPENCODE entries carry the event type as message, the others are OUTPUT text_line entries |
| DbAdminLogger.EntriesAppend | images/compromised/db_admin_logger.py:166-216 | the timeline of a concatenation is the timelines of its parts in order |
| DbAdminLogger.EntriesAllBlank | images/compromised/db_admin_logger.py:166-169 | nothing is logged exactly when every line is blank |
| DbAdminLogger.LogLine | images/compromised/db_admin_logger.py:188-216 | one loop pass appends the entry `Entries` gives the line |
| DbAdminLogger.AppendOpencodeEvents | images/compromised/db_admin_logger.py:158-232 | the same metrics as `_calculate_metrics` on the same stdout, and the timeline entries `Entries` of its lines |
| AttackerOpencodeInteractive.AttackerKindOf | scripts/attacker_opencode_interactive.py:66-74 | a line is stripped first; blank, a decoded event, or plain, never a Bash line |
| AttackerOpencodeInteractive.EventEntries | scripts/attacker_opencode_interactive.py:93-101 | one OPENCODE entry per decoded event, with the event type as message and the first 8 characters of the execution id |
| AttackerOpencodeInteractive.EventEntriesAppend | scripts/attacker_opencode_interactive.py:66-101 | the timeline of a concatenation is the timelines of its parts in order |
| AttackerOpencodeInteractive.EventEntriesNone | scripts/attacker_opencode_interactive.py:70-74 | nothing is logged exactly when no line decodes |
| AttackerOpencodeInteractive.SameWithoutBashLines | scripts/attacker_opencode_interactive.py:61-111 | without Bash-marked lines this logger and the compromised host's agree on LLM calls, tools and errors; the final outputs differ only where no plain line or text part gave one, and there this one has none |
| AttackerOpencodeInteractive.UniqueToolsBounds | scripts/attacker_opencode_interactive.py:176 | `unique_tools` is at most the number of tool calls, and at least one exactly when a tool was called |
| AttackerOpencodeInteractive.ReadEvent | scripts/attacker_opencode_interactive.py:66-101 | one loop pass extends each accumulator and the timeline as the reference folds do for one more line |
| AttackerOpencodeInteractive.AppendOpencodeEvents | scripts/attacker_opencode_interactive.py:61-111 | the loop and the text-part fallback compute `AttackerMetricsOf` (no Bash estimate, no whole-stdout fallback) and log `EventEntries` |
| AnalyzePcaps.StepMilestonesOnce | scripts/defender_experiments/analyze_pcaps.py:95-97 | a packet never changes a milestone already set; a milestone it sets holds that packet's time |
| AnalyzePcaps.TcpMilestonesOnce | scripts/defender_experiments/analyze_pcaps.py:128-171 | the same for the TCP part of a packet, on either direction of an SSH connection |
| AnalyzePcaps.StepTransitions | scripts/defender_experiments/analyze_pcaps.py:120-171 | a connection state changes only along the handshake: to SYN_SENT, SYN_SENT to SYN_ACK_RECVD, SYN_ACK_RECVD to HANDSHAKE_COMPLETE, HANDSHAKE_COMPLETE to AUTH_IN_PROGRESS, and to AUTH_SUCCESS only from those two after more than 3 data packets |
| AnalyzePcaps.ClientSynStarts | scripts/defender_experiments/analyze_pcaps.py:120-121 | a client SYN without ACK to the SSH port always leaves its connection in SYN_SENT, whatever the state before |
| AnalyzePcaps.RunKeepsMilestones | scripts/defender_experiments/analyze_pcaps.py:74-177 | over a whole file, milestones already set stay as they were |
| AnalyzePcaps.RunInv | scripts/defender_experiments/analyze_pcaps.py:81-171 | the packet loop keeps attempts equal to data packets, an attempt recorded exactly when some data packet was, success only after more than 3 data packets, each milestone implying the earlier ones, and only client-first SSH connections from the compromised host to the server tracked |
| AnalyzePcaps.RunFilesInv | scripts/defender_experiments/analyze_pcaps.py:74-177 | the same invariant across the files, whose state persists |
| AnalyzePcaps.WaterfallChain | scripts/defender_experiments/analyze_pcaps.py:182-213 | each status holds exactly when the milestones reach that far along the chain: no destination is no activity, and a later milestone counts only with every earlier one set |
| AnalyzePcaps.Timing | scripts/defender_experiments/analyze_pcaps.py:216-239 | each timing entry is present exactly when both of its milestones are set |
| AnalyzePcaps.ReportConsistent | scripts/defender_experiments/analyze_pcaps.py:179-258 | every report counts as many attempts as data packets, and calls a defender failure exactly when some destination was contacted and success was seen, which needs more than 3 data packets |
| AnalyzePcaps.ProcessPacket | scripts/defender_experiments/analyze_pcaps.py:83-171 | one pass of the packet loop updates the five pieces of state as the transition function says |
| AnalyzePcaps.AnalyzeFolder | scripts/defender_experiments/analyze_pcaps.py:29-258 | no files gives no report; otherwise the report of the state the packets of every file leave, in order |
| EnlargeDatabase.TableName | scripts/defender_experiments/enlarge_database_with_integrity.py:44-46 | the table name is the non-empty word that follows "COPY " |
| EnlargeDatabase.TerminatorIsNoStart | scripts/defender_experiments/enlarge_database_with_integrity.py:35-52 | a terminator line is never a section start, so the start test never hides it |
| EnlargeDatabase.DataLinesAppended | scripts/defender_experiments/enlarge_database_with_integrity.py:63-65 | inside a section every other line is appended to the data in order |
| EnlargeDatabase.SectionParsed | scripts/defender_experiments/enlarge_database_with_integrity.py:33-61 | a section start, data lines and a terminator save that section under its table name, after saving any section still open; afterwards no section is open |
| EnlargeDatabase.OpenSectionDropped | scripts/defender_experiments/enlarge_database_with_integrity.py:33-65 | a section still open at the end of the dump is not saved |
| EnlargeDatabase.ParseKeepsInv | scripts/defender_experiments/enlarge_database_with_integrity.py:33-65 | a section is open exactly when a table is current; every saved section is keyed by the table its header names and holds only data lines |
| EnlargeDatabase.FirstCopy | scripts/defender_experiments/enlarge_database_with_integrity.py:73-77 | the index of the first section start, with no section start before it; none when there is no section start |
| EnlargeDatabase.HeaderLines | scripts/defender_experiments/enlarge_database_with_integrity.py:72-79 | the header is the lines before the first section start, and empty when the dump has no section start |
| EnlargeDatabase.ParseSqlFile | scripts/defender_experiments/enlarge_database_with_integrity.py:13-81 | the loop saves exactly the sections of the reference parse, and returns the header and all lines |
| EnlargeDatabase.RekeyFields | scripts/defender_experiments/enlarge_database_with_integrity.py:178-201 | a copied row has the new id as its first field and keeps every other field |
| EnlargeDatabase.RecordsOf | scripts/defender_experiments/enlarge_database_with_integrity.py:87-93 | the records grouped under an id all have that numeric id and come from the input |
| EnlargeDatabase.LookupGroups | scripts/defender_experiments/enlarge_database_with_integrity.py:83-111 | an id is grouped exactly when some record has it as numeric first field, and its group is that employee's records in input order |
| EnlargeDatabase.GroupByEmployee | scripts/defender_experiments/enlarge_database_with_integrity.py:88-93 | one grouping loop computes the reference grouping |
| EnlargeDatabase.BuildEmployeeLookup | scripts/defender_experiments/enlarge_database_with_integrity.py:83-111 | the three lookups are the groupings of the salary, title and department_employee rows |
| EnlargeDatabase.HeaderLineKept | scripts/defender_experiments/enlarge_database_with_integrity.py:125-133 | no header line is skipped, since the `ALTER TABLE ONLY` branch can never run; a line is commented out exactly when it sets a `nextval` default |
| EnlargeDatabase.ProcessHeader | scripts/defender_experiments/enlarge_database_with_integrity.py:124-133 | the header loop rewrites every line as the reference does |
| EnlargeDatabase.DataRowsMembers | scripts/defender_experiments/enlarge_database_with_integrity.py:148 | a line is kept as a data row exactly when it is in the section and is neither blank nor the terminator |
| EnlargeDatabase.BatchFacts | scripts/defender_experiments/enlarge_database_with_integrity.py:177-215 | one batch keeps the rows already there, appends one employee row per numeric-id employee with consecutive ids, and every related row it appends carries one of those ids |
| EnlargeDatabase.BatchesFacts | scripts/defender_experiments/enlarge_database_with_integrity.py:165-215 | over all batches the ids run consecutively from the start id, the employee table grows by batches times numeric-id employees, and every appended related row carries one of the new ids |
| EnlargeDatabase.BatchesLeaveEmpty | scripts/defender_experiments/enlarge_database_with_integrity.py:196-215 | a related table without rows gains none |
| EnlargeDatabase.DuplicatedIntegrity | scripts/defender_experiments/enlarge_database_with_integrity.py:146-194 | original rows come first; the employee table holds original rows plus (multiplier - 1) times the numeric-id employees, with ids consecutive from 500000 |
| EnlargeDatabase.NewIdsDistinct | scripts/defender_experiments/enlarge_database_with_integrity.py:182-184 | the new employee ids are pairwise distinct |
| EnlargeDatabase.ReferentialIntegrity | scripts/defender_experiments/enlarge_database_with_integrity.py:186-215 | every appended salary, title and department_employee row carries the id of an appended employee row |
| EnlargeDatabase.EnlargedFails | scripts/defender_experiments/enlarge_database_with_integrity.py:174-234 | the enlargement fails exactly when batches are due and the dump has no employee section; writing never meets a non-empty table without a section |
| EnlargeDatabase.AppendRekeyed | scripts/defender_experiments/enlarge_database_with_integrity.py:197-215 | one inner loop appends every related record under the new id |
| EnlargeDatabase.CopyEmployee | scripts/defender_experiments/enlarge_database_with_integrity.py:182-215 | the body of the employee loop appends the employee and all its related rows under the new id |
| EnlargeDatabase.RunBatch | scripts/defender_experiments/enlarge_database_with_integrity.py:177-215 | the employee loop computes one batch of the reference duplication |
| EnlargeDatabase.RunBatches | scripts/defender_experiments/enlarge_database_with_integrity.py:165-218 | the batch loop computes all batches from id 500000 |
| EnlargeDatabase.WriteBlocks | scripts/defender_experiments/enlarge_database_with_integrity.py:228-234 | the write loop emits one COPY block per non-empty table in the fixed order |
| EnlargeDatabase.DuplicateWithIntegrity | scripts/defender_experiments/enlarge_database_with_integrity.py:113-241 | the whole method computes the reference output, including its `KeyError` |
| IpScan.FindIPs | images/slips_defender/defender_api.py:66 | every match is a dotted quad of digit groups |
| Text.StripBlank | images/slips_defender/defender_api.py:184-185 | `strip()` leaves nothing exactly when the text is whitespace |
| Json.RenderScalars | scripts/coder56_experiments/run_experiment.py:240 | `str` of a scalar: a string is itself, `None`, `True` and `False` are their Python names, and an integer prints in decimal, after a minus sign when negative, reading back as its magnitude |
| Ghosts.ScanAppend | images/ghosts_driver/john_scott_llm/llm_query_generator.py:182-187 | the shell reads a concatenated command line part by part, the second part from the quoting state the first left |
| Ghosts.SshPrefixPlain | images/ghosts_driver/john_scott_llm/llm_query_generator.py:31-40 | the fixed SSH and database connection details hold no quote and no backslash, so the shell takes them as written |
| Ghosts.PsqlDelivered | images/ghosts_driver/john_scott_llm/llm_query_generator.py:185-186 | the remote shell runs psql with `-c` set to exactly what the double-quoted argument reads to |
| Ghosts.EchoDelivered | images/ghosts_driver/john_scott_llm/llm_query_generator.py:216 | an echo command with a plain message closes its quotes; the remote side gets `echo '<msg>'` and echoes the message itself |
| Ghosts.SshDelivered | images/ghosts_driver/john_scott_llm/generate_timeline_llm.py:44-47 | a remote command with no single quote reaches ssh unchanged inside the single quotes, and every quote is closed |
| Ghosts.SshCommandReads | images/ghosts_driver/john_scott_llm/generate_timeline_llm.py:44-47 | ssh receives whatever the single-quoted remote command reads to |
| LlmQueryGenerator.CleanQueryClean | images/ghosts_driver/john_scott_llm/llm_query_generator.py:151-163 | a cleaned query has no code fence left, neither starts nor ends with whitespace, and holds whitespace only as single spaces |
| LlmQueryGenerator.FencesRemoved | images/ghosts_driver/john_scott_llm/llm_query_generator.py:154 | removing every "```" leaves no three backticks in a row, longer runs included |
| LlmQueryGenerator.CleanQueryIdempotent | images/ghosts_driver/john_scott_llm/llm_query_generator.py:151-163 | cleaning a cleaned query changes nothing |
| LlmQueryGenerator.GenerateQueryCases | images/ghosts_driver/john_scott_llm/llm_query_generator.py:131-149 | a non-blank LLM reply is used cleaned; a missing or blank one gives a fallback query, which is never empty; so only a reply that cleans to nothing gives an empty query |
| LlmQueryGenerator.EscapeQueryEach | images/ghosts_driver/john_scott_llm/llm_query_generator.py:180 | the two replacements put a backslash before each `"` and each `$` and keep every other character in place |
| LlmQueryGenerator.EscapeReadsBack | images/ghosts_driver/john_scott_llm/llm_query_generator.py:180-186 | inside double quotes the escaped query reads back to the query, when it has no backslash |
| LlmQueryGenerator.EscapeInert | images/ghosts_driver/john_scott_llm/llm_query_generator.py:180 | escaping adds no single quote |
| LlmQueryGenerator.SshCommandLocal | images/ghosts_driver/john_scott_llm/llm_query_generator.py:177-189 | for a query with no single quote the local shell hands ssh the psql command with the escaped query |
| LlmQueryGenerator.SshCommandRemote | images/ghosts_driver/john_scott_llm/llm_query_generator.py:180-186 | for a query with no backslash the remote shell hands psql the query itself |
| LlmQueryGenerator.TasksDistinct | images/ghosts_driver/john_scott_llm/llm_query_generator.py:195-206 | the ten tasks are pairwise distinct, so a sample of positions is a sample of tasks |
| LlmQueryGenerator.QueryActivityMadeFor | images/ghosts_driver/john_scott_llm/llm_query_generator.py:223-234 | an activity carries its work item, its non-empty query, the SSH command for that query and the delays |
| LlmQueryGenerator.QueryActivitiesFacts | images/ghosts_driver/john_scott_llm/llm_query_generator.py:222-234 | at most one activity per pick; each has a non-empty query, its SSH command, 5000 ms before and 20000-35000 ms after; no task appears twice |
| LlmQueryGenerator.QueryPerPick | images/ghosts_driver/john_scott_llm/llm_query_generator.py:222-234 | when no query comes back empty, each picked task gets its activity, in order |
| LlmQueryGenerator.ActivitySequenceShape | images/ghosts_driver/john_scott_llm/llm_query_generator.py:191-244 | the sequence starts with the start echo and ends with the end echo, holds only query activities between them, and has between 2 and `min(num, 10) + 2` entries |
| LlmQueryGenerator.EchoActivitiesDelivered | images/ghosts_driver/john_scott_llm/llm_query_generator.py:214-241 | both session echo commands close their quotes and reach the remote side whole |
| LlmQueryGenerator.GenerateActivitySequence | images/ghosts_driver/john_scott_llm/llm_query_generator.py:191-244 | fails exactly for a negative count, where `random.sample` raises; otherwise returns the reference sequence |
| LlmQueryGenerator.AppendQueryActivities | images/ghosts_driver/john_scott_llm/llm_query_generator.py:222-234 | the loop appends the activities of the picks, in order, to those before it |
| LlmQueryGenerator.AddQueryActivity | images/ghosts_driver/john_scott_llm/llm_query_generator.py:223-234 | one pass adds the pick's activity exactly when its query is non-empty |
| LlmQueryGenerator.GenerateTimelineJson | images/ghosts_driver/john_scott_llm/llm_query_generator.py:246-280 | a single looping Bash handler, with one event per activity of the five-task sequence carrying its command and delays and no arguments |
| LlmQueryGenerator.ActivityEvents | images/ghosts_driver/john_scott_llm/llm_query_generator.py:252-259 | event `i` carries activity `i`'s command and delays and no arguments |
| GenerateTimelineLlm.EscapeOrder | images/ghosts_driver/john_scott_llm/generate_timeline_llm.py:29-32 | regrouping single quotes and escaping `$$` commute: neither writes what the other looks for |
| GenerateTimelineLlm.DollarPair | images/ghosts_driver/john_scott_llm/generate_timeline_llm.py:32 | a leading `$$` becomes `\$\$` and the scan resumes after it |
| GenerateTimelineLlm.RegroupedReadsBack | images/ghosts_driver/john_scott_llm/generate_timeline_llm.py:29 | inside single quotes a text with its quotes regrouped as `'"'"'` reads back as the text |
| GenerateTimelineLlm.DollarReadsBack | images/ghosts_driver/john_scott_llm/generate_timeline_llm.py:32 | inside double quotes the dollar-escaped text reads back as the text, when it holds no `"` and no backslash |
| GenerateTimelineLlm.PsqlRegrouped | images/ghosts_driver/john_scott_llm/generate_timeline_llm.py:38-41 | the fixed parts of the psql command hold no single quote, so regrouping touches its argument only |
| GenerateTimelineLlm.CreateSshCommandLocal | images/ghosts_driver/john_scott_llm/generate_timeline_llm.py:23-49 | for every query the local shell closes every quote and hands ssh the psql command with the trimmed, dollar-escaped query, each single quote arriving as one |
| GenerateTimelineLlm.CreateSshCommandRemote | images/ghosts_driver/john_scott_llm/generate_timeline_llm.py:23-49 | the remote shell hands psql the trimmed query itself, when it holds no double quote and no backslash |
| GenerateTimelineLlm.IntroMessagePlain | images/ghosts_driver/john_scott_llm/generate_timeline_llm.py:70 | a role with no quote and no backslash gives an intro message with none |
| GenerateTimelineLlm.IntroAsWrittenUnbalanced | images/ghosts_driver/john_scott_llm/generate_timeline_llm.py:67-71 | the intro command as written ends inside an unclosed single quote, so it is not a complete command line |
| GenerateTimelineLlm.IntroDelivered | images/ghosts_driver/john_scott_llm/generate_timeline_llm.py:67-71 | the intro command without the stray quote closes every quote and runs echo on the intro message remotely |
| GenerateTimelineLlm.ClosingDelivered | images/ghosts_driver/john_scott_llm/generate_timeline_llm.py:86-95 | the closing command closes every quote and runs echo on the closing message remotely |
| GenerateTimelineLlm.EventsShape | images/ghosts_driver/john_scott_llm/generate_timeline_llm.py:60-95 | `len(queries) + 2` events: the intro first, query `i`'s SSH command with no arguments at `i + 1`, the closing event last |
| GenerateTimelineLlm.QueryDelays | images/ghosts_driver/john_scott_llm/generate_timeline_llm.py:78-83 | query `i` waits the base delays plus `(i % 3)` and `2 * (i % 4)` seconds: at most 2 and 6 seconds more, repeating every 12 queries |
| GenerateTimelineLlm.EventsBalanced | images/ghosts_driver/john_scott_llm/generate_timeline_llm.py:60-112 | with a plain role the intro command, built as line 70 builds it, leaves a single quote open, and every later command, each query's and the closing one, is a complete command line |
| GenerateTimelineLlm.QueryOrClosingBalanced | images/ghosts_driver/john_scott_llm/generate_timeline_llm.py:78-95 | every query event and the closing event close all their quotes |
| GenerateTimelineLlm.EventsDifferInIntro | images/ghosts_driver/john_scott_llm/generate_timeline_llm.py:60-95 | the timeline with the corrected intro differs from the one the source builds only in the intro command, which drops the stray final quote |
| GenerateTimelineLlm.EventsIntendedBalanced | images/ghosts_driver/john_scott_llm/generate_timeline_llm.py:60-95 | with the corrected intro and a plain role every command of the timeline closes all its quotes |
| GenerateTimelineLlm.TimelineGenerator.constructor | images/ghosts_driver/john_scott_llm/generate_timeline_llm.py:17-21 | keeps the queries, the base delays and the role |
| GenerateTimelineLlm.TimelineGenerator.GenerateTimeline | images/ghosts_driver/john_scott_llm/generate_timeline_llm.py:60-112 | one Bash handler with the given Loop flag holding exactly the reference events, the intro command as the source writes it included |
| GenerateTimelineLlm.TimelineGenerator.AddQueryEvent | images/ghosts_driver/john_scott_llm/generate_timeline_llm.py:78-83 | one pass appends the event for query `i` with its cycling delays |
| Jsonl.ParsedLinesAppend | scripts/coder56_experiments/run_experiment.py:141-148 | reading is a fold over the lines: two stretches of the file give the entries of the first, then those of the second |
| Jsonl.ParsedLinesSkip | scripts/coder56_experiments/run_experiment.py:142-148 | a blank or malformed line contributes nothing, and the lines after it are still read |
| Jsonl.ParsedLinesAll | scripts/benign_experiments/run_experiment.py:64-73 | when every line decodes there is one entry per line, in file order |
| Jsonl.ReadJsonl | scripts/coder56_experiments/run_experiment.py:136-149 | a missing file reads as no entries; otherwise the loop returns the decoded non-blank lines in order |
| Coder56RunExperiment.MinOf | scripts/coder56_experiments/run_experiment.py:176-178 | `min` is an element of the list and at most every element |
| Coder56RunExperiment.MaxOf | scripts/coder56_experiments/run_experiment.py:177 | `max` is an element of the list and at least every element |
| Coder56RunExperiment.SuccessCount | scripts/coder56_experiments/run_experiment.py:155 | at most one per entry, and zero exactly when no entry has `success` exactly True |
| Coder56RunExperiment.SuccessTimesAreTimes | scripts/coder56_experiments/run_experiment.py:162-174 | every success time is also an attempt time |
| Coder56RunExperiment.SuccessTimesNeedSuccess | scripts/coder56_experiments/run_experiment.py:162-174 | success times exist only if some entry succeeded, and do exist once a successful entry has a usable time |
| Coder56RunExperiment.FlaskCounts | scripts/coder56_experiments/run_experiment.py:153-156 | the attempts are the entries; the password was found exactly when some entry succeeded |
| Coder56RunExperiment.FlaskWindow | scripts/coder56_experiments/run_experiment.py:160-180 | first and last times exist together, exactly when some entry has a usable time; they are attempt times bounding every other; the time to first attempt is measured from the start |
| Coder56RunExperiment.FlaskSuccessAfterFirst | scripts/coder56_experiments/run_experiment.py:176-181 | a time to success exists only when the password was found, and is never before the time to first attempt |
| Coder56RunExperiment.FlaskRate | scripts/coder56_experiments/run_experiment.py:183-187 | the rate is zero unless the first-to-last window is positive, and then it is attempts over that window |
| Coder56RunExperiment.ParseFlaskLog | scripts/coder56_experiments/run_experiment.py:152-200 | the loop gives the reference statistics of the decoded log, and those of an empty log when the file is missing |
| Coder56RunExperiment.LastExec | scripts/coder56_experiments/run_experiment.py:219-223 | the kept exec entry has level EXEC |
| Coder56RunExperiment.ErrorEntries | scripts/coder56_experiments/run_experiment.py:224-225 | only ERROR entries, at most one per entry |
| Coder56RunExperiment.ErrorsCount | scripts/coder56_experiments/run_experiment.py:232-233 | above 1 only for a list |
| Coder56RunExperiment.SummaryMissing | scripts/coder56_experiments/run_experiment.py:205-215 | an empty or missing timeline is "missing", not timed out, with no exit code and zero counts |
| Coder56RunExperiment.StatusPriority | scripts/coder56_experiments/run_experiment.py:235-250 | "timeout" exactly when some ERROR message mentions "timed out"; else "failed" exactly when the exit code is missing or non-zero; else "completed" |
| Coder56RunExperiment.LastExecIsLast | scripts/coder56_experiments/run_experiment.py:219-223 | there is no exec entry exactly when no entry is EXEC; otherwise it is an EXEC entry with none after it |
| Coder56RunExperiment.LastErrorIsLast | scripts/coder56_experiments/run_experiment.py:237-238 | the error list is empty exactly when no entry is ERROR; otherwise its last element is an ERROR entry with none after it |
| Coder56RunExperiment.ErrorsCountCases | scripts/coder56_experiments/run_experiment.py:232-233 | a list counts its length; any other value counts 1 if truthy and 0 otherwise |
| Coder56RunExperiment.ParseCoder56Timeline | scripts/coder56_experiments/run_experiment.py:203-261 | the method gives the reference summary of the decoded timeline, and the missing summary when the file is absent |
| Coder56RunExperiment.CollectEntries | scripts/coder56_experiments/run_experiment.py:217-225 | the loop keeps the last EXEC entry and collects the ERROR entries in order |
| Coder56RunExperiment.AnyTimesOut | scripts/coder56_experiments/run_experiment.py:239-242 | the scan that stops at the first hit reports whether any error message mentions a timeout |
| BenignRunExperiment.ErrorKindIsErrorLevel | scripts/benign_experiments/run_experiment.py:131-141 | an event takes the error branch exactly when its level is ERROR, whatever its message |
| BenignRunExperiment.Classified | scripts/benign_experiments/run_experiment.py:100-104 | one classified event per timeline event, in order |
| BenignRunExperiment.LastSetLast | scripts/benign_experiments/run_experiment.py:106-141 | an event that sets a field decides it, whatever came before |
| BenignRunExperiment.LastSetSkip | scripts/benign_experiments/run_experiment.py:106-156 | an event that does not set a field leaves it unchanged |
| BenignRunExperiment.LastSetFrom | scripts/benign_experiments/run_experiment.py:79-141 | without an event that sets a field it keeps its initial value; otherwise the last event that sets it decides it |
| BenignRunExperiment.CollectedLength | scripts/benign_experiments/run_experiment.py:123-158 | the tool total is the sum of what each event adds |
| BenignRunExperiment.TotalOfKind | scripts/benign_experiments/run_experiment.py:132-156 | a count of one kind of event is at most the number of events, and zero exactly when no event is of that kind |
| BenignRunExperiment.DurationSupplied | scripts/benign_experiments/run_experiment.py:160-167 | a duration from a completion event is kept; one derived from start and end appears only when none was supplied and both times decode |
| BenignRunExperiment.CompletedThenFailed | scripts/benign_experiments/run_experiment.py:121-138 | a run that completes and then reports "execution failed" ends "failed" |
| BenignRunExperiment.StatusOnlyFromKnownEvents | scripts/benign_experiments/run_experiment.py:87-141 | the status stays "unknown" unless an INIT, completion, timeout, failure or exception event sets it; then the last such event decides it |
| BenignRunExperiment.ErrorsCounted | scripts/benign_experiments/run_experiment.py:131-132 | every ERROR event counts once: the count is at most the events and zero exactly when none is an error |
| BenignRunExperiment.TracksStep | scripts/benign_experiments/run_experiment.py:100-156 | reading one more event keeps every field in step with the events read so far |
| BenignRunExperiment.ExtractMetricsFromTimeline | scripts/benign_experiments/run_experiment.py:77-169 | each field is set by the last event that sets it or counts the events of its kind; the tool total is the number of collected tools; the duration is derived only when none was supplied |
| BenignRunExperiment.ReadEvents | scripts/benign_experiments/run_experiment.py:100-156 | the loop keeps the metrics in step with the prefix of events read |
| BenignRunExperiment.ReadEvent | scripts/benign_experiments/run_experiment.py:100-156 | one event updates exactly the fields its branch of the if/elif chain names |
| BenignRunExperiment.ReadStart | scripts/benign_experiments/run_experiment.py:107-112 | the INIT branch sets identity, goal, container, start time and status "running" |
| BenignRunExperiment.ReadCompletion | scripts/benign_experiments/run_experiment.py:115-128 | the completion branch sets end time, figures and status "completed", adds truthy tool calls, and sets the output length only for a truthy output |
| BenignRunExperiment.ReadError | scripts/benign_experiments/run_experiment.py:131-141 | the error branch counts the error; the three known messages set the status, and the timeout and failure ones their extra field |
| BenignRunExperiment.ReadToolUse | scripts/benign_experiments/run_experiment.py:144-152 | a truthy tool is collected, and bash or run_in_terminal is counted as a bash command |
| BenignRunExperiment.Timeouts | scripts/benign_experiments/run_experiment.py:199-208 | without a timeout the logger gets 24 hours and the subprocess none; with one, the logger gets it and the subprocess 60 seconds more |
| Counting.TallyKeys | scripts/defender_experiments/run_multi_experiment.py:233-234 | after `counts[k] = counts.get(k, 0) + 1` over a list, the dictionary's keys are exactly the keys that occur in it |
| Counting.TallySnoc | scripts/defender_experiments/run_multi_experiment.py:233 | counting one more key is one increment of that key |
| Counting.TallyCounts | scripts/defender_experiments/run_multi_experiment.py:233-234 | each counted key's count is its number of occurrences |
| Counting.CountOrZero | scripts/defender_experiments/run_multi_experiment.py:304-311 | `counts.get(k, 0)` after counting is the multiplicity of `k`, zero for a key never seen |
| RunMultiExperiment.AnalyzedResults | scripts/defender_experiments/run_multi_experiment.py:224-226 | only results with a truthy `pcap_analysis` take part, at most all of them |
| RunMultiExperiment.Recommendations | scripts/defender_experiments/run_multi_experiment.py:293-316 | the list of recommendations is never empty |
| RunMultiExperiment.GenerateRecommendations | scripts/defender_experiments/run_multi_experiment.py:281-316 | the method appends the reference lines in the order of the tests |
| RunMultiExperiment.AddPriority | scripts/defender_experiments/run_multi_experiment.py:295-302 | appends the one priority line the failure rate's band selects, or none |
| RunMultiExperiment.AddAdvice | scripts/defender_experiments/run_multi_experiment.py:304-311 | appends the advice lines of the performance keys with a positive count, in the fixed order |
| RunMultiExperiment.PriorityBands | scripts/defender_experiments/run_multi_experiment.py:295-302 | HIGH exactly when the rate is above 1/2, MEDIUM when above 1/5 but not 1/2, LOW when positive but at most 1/5; with a success, exactly one is given and it comes first |
| RunMultiExperiment.AdviceFollowsBreakdown | scripts/defender_experiments/run_multi_experiment.py:304-311 | each advice line appears exactly when its performance key has a positive count |
| RunMultiExperiment.DefaultOnlyWhenQuiet | scripts/defender_experiments/run_multi_experiment.py:313-314 | the list is just the default message exactly when the rate is zero and no advice key was seen |
| RunMultiExperiment.AggregateResults | scripts/defender_experiments/run_multi_experiment.py:193-279 | an empty list gives the error answer and only it does; otherwise the counters, breakdowns, timing sums and recommendations of the reference report |
| RunMultiExperiment.CountResults | scripts/defender_experiments/run_multi_experiment.py:224-251 | the loop computes the tallies of the analyzed results |
| RunMultiExperiment.CountResult | scripts/defender_experiments/run_multi_experiment.py:228-251 | one analyzed result adds its status, its performance, its outcome and its summary values |
| RunMultiExperiment.CountOutcome | scripts/defender_experiments/run_multi_experiment.py:237-243 | the first-match branch raises exactly the counter(s) of the outcome: failure counts a successful attack too |
| RunMultiExperiment.CollectSummary | scripts/defender_experiments/run_multi_experiment.py:246-251 | a summary's duration and pcap count are collected when the keys are present |
| RunMultiExperiment.TalliesStep | scripts/defender_experiments/run_multi_experiment.py:224-251 | the tallies of one more analyzed result are one loop step from those before |
| RunMultiExperiment.OutcomesPartition | scripts/defender_experiments/run_multi_experiment.py:237-243 | every analyzed result falls in exactly one of failure, warning, alert or none |
| RunMultiExperiment.ReportCounts | scripts/defender_experiments/run_multi_experiment.py:210-271 | failures equal successful attacks; failures, warnings and alerts together are at most the analyzed results, which are at most all results, the rate's denominator |
| RunMultiExperiment.BreakdownCounts | scripts/defender_experiments/run_multi_experiment.py:233-234 | each status and performance count is its number of occurrences among the analyzed results |
| RunMultiExperiment.SkippedResult | scripts/defender_experiments/run_multi_experiment.py:225-226 | a result without a pcap analysis changes nothing in the counts |
| RunMultiExperiment.FailureFirst | scripts/defender_experiments/run_multi_experiment.py:237-239 | a performance naming FAILURE is a failure whatever else it names |
| GenerateOpencodeAnalysis.TrailingDigits | scripts/defender_experiments/analysis/generate_opencode_analysis.py:85 | the longest all-digit suffix of the name |
| GenerateOpencodeAnalysis.RunNumberMeans | scripts/defender_experiments/analysis/generate_opencode_analysis.py:83-86 | `run_(\d+)$` matches exactly when some `run_` is followed by digits to the end, and the run number is the value of those digits |
| GenerateOpencodeAnalysis.VerifyFirewallUnreachable | scripts/defender_experiments/analysis/generate_opencode_analysis.py:201-210 | "Verify firewall rules" is never returned: every iptables command is caught by the three rules before it |
| GenerateOpencodeAnalysis.IptablesFamily | scripts/defender_experiments/analysis/generate_opencode_analysis.py:201-206 | a command names iptables exactly when it is classed as outbound block, inbound block or firewall modification |
| GenerateOpencodeAnalysis.IptablesSaveIsNotBackup | scripts/defender_experiments/analysis/generate_opencode_analysis.py:201-247 | an `iptables-save` command is a firewall action, never "Backup configuration" |
| GenerateOpencodeAnalysis.OtherWhenNothingMatches | scripts/defender_experiments/analysis/generate_opencode_analysis.py:196-258 | a command is "Other" exactly when it contains none of the words that decide a test |
| GenerateOpencodeAnalysis.ScanTimeline | scripts/defender_experiments/analysis/generate_opencode_analysis.py:143-194 | a missing timeline leaves the run data empty; otherwise the loop computes the reference scan of the decoded lines |
| GenerateOpencodeAnalysis.ReadToolUse | scripts/defender_experiments/analysis/generate_opencode_analysis.py:159-186 | a tool use counts its truthy tool, and before the first DONE records its bash command and files it under its action type |
| GenerateOpencodeAnalysis.FirstDone | scripts/defender_experiments/analysis/generate_opencode_analysis.py:153-156 | the position of the first DONE entry, none before it |
| GenerateOpencodeAnalysis.SecondDone | scripts/defender_experiments/analysis/generate_opencode_analysis.py:153-155 | the position of the second DONE entry, after the first |
| GenerateOpencodeAnalysis.ScanCollects | scripts/defender_experiments/analysis/generate_opencode_analysis.py:148-186 | before `success_found` the scan appends exactly the bash commands up to the first DONE, each filed under its action type |
| GenerateOpencodeAnalysis.ScanFoundKeepsCommands | scripts/defender_experiments/analysis/generate_opencode_analysis.py:176-177 | once `success_found` is set, no more commands are collected |
| GenerateOpencodeAnalysis.ScanTallies | scripts/defender_experiments/analysis/generate_opencode_analysis.py:153-169 | the tool counts are those of the tool names up to where the scan stops |
| GenerateOpencodeAnalysis.ScanCommands | scripts/defender_experiments/analysis/generate_opencode_analysis.py:143-186 | the commands are the bash tool uses before the first DONE, in order |
| GenerateOpencodeAnalysis.ScanTools | scripts/defender_experiments/analysis/generate_opencode_analysis.py:153-169 | tools keep being counted until the second DONE: each tool's count is its number of uses before it |
| GenerateOpencodeAnalysis.GroupMeans | scripts/defender_experiments/analysis/generate_opencode_analysis.py:186 | an action list exists exactly for the types that occur, and holds that type's commands in order |
| GenerateOpencodeAnalysis.ScanActions | scripts/defender_experiments/analysis/generate_opencode_analysis.py:184-186 | the action lists group the collected commands by the type `_categorize_action` gives each |
| GenerateOpencodeAnalysis.CountActionFrequency | scripts/defender_experiments/analysis/generate_opencode_analysis.py:264-268 | each action type's count is the number of runs that have it, and only such types are keys |
| ExpandRunAnalysis.TruncateOutput | scripts/defender_experiments/analysis/expand_run_analysis.py:120-122 | an output of at most 500 characters is kept whole; a longer one keeps its first 500 characters and ends with the truncation mark |
| ExpandRunAnalysis.ExtractTimelineCommands | scripts/defender_experiments/analysis/expand_run_analysis.py:72-137 | no result exactly when the run's directory or its timeline is missing; otherwise the bash records of the decoded lines up to the first EXEC DONE entry |
| ExpandRunAnalysis.ReadBash | scripts/defender_experiments/analysis/expand_run_analysis.py:106-129 | the record of a bash tool use, with missing text fields read as "" and the output truncated |
| ExpandRunAnalysis.FirstExecDone | scripts/defender_experiments/analysis/expand_run_analysis.py:97-99 | the position of the first DONE entry whose message mentions EXEC, none before it |
| ExpandRunAnalysis.CollectedMeans | scripts/defender_experiments/analysis/expand_run_analysis.py:91-132 | the scan collects exactly the bash records before the first EXEC DONE entry |
| ExpandRunAnalysis.CollectedStops | scripts/defender_experiments/analysis/expand_run_analysis.py:97-99 | nothing after the first EXEC DONE entry is read |
| ExpandRunAnalysis.RecordsFromEntries | scripts/defender_experiments/analysis/expand_run_analysis.py:106-129 | every collected record is the record of some entry |
| ExpandRunAnalysis.CollectedOutputsBounded | scripts/defender_experiments/analysis/expand_run_analysis.py:120-122 | every collected output is at most 515 characters long |
| ExpandRunAnalysis.StatusMeans | scripts/defender_experiments/analysis/expand_run_analysis.py:145 | success exactly for exit code 0, unknown exactly for a missing code, and failed naming the code otherwise |
| ExpandRunAnalysis.FormatCommandsForLlm | scripts/defender_experiments/analysis/expand_run_analysis.py:140-160 | the text is the command blocks, numbered from 1, joined by newlines |
| ExpandRunAnalysis.AppendBlock | scripts/defender_experiments/analysis/expand_run_analysis.py:144-158 | one command appends its header lines, then its output lines when the output is not blank |
| ExpandRunAnalysis.AppendHeader | scripts/defender_experiments/analysis/expand_run_analysis.py:147-152 | the heading with the description, the status line and the fenced command |
| ExpandRunAnalysis.AppendOutput | scripts/defender_experiments/analysis/expand_run_analysis.py:154-158 | the fenced output, cut to 800 characters |
| ExpandRunAnalysis.PromptLinesPrefix | scripts/defender_experiments/analysis/expand_run_analysis.py:144-158 | the lines of the first commands are a prefix of the whole prompt |
| ExpandRunAnalysis.CommandBlock | scripts/defender_experiments/analysis/expand_run_analysis.py:144-158 | command `k` appears as block `k + 1`, right after the blocks of the commands before it |
| ExpandRunAnalysis.BlockOutput | scripts/defender_experiments/analysis/expand_run_analysis.py:147-158 | a block has 10 lines when the output is not blank and 6 otherwise; it shows the command and at most 800 characters of output |
| AnalyzeCoder56Actions.TagIndex | scripts/coder56_experiments/analysis/analyze_coder56_actions.py:98-119 | each tag but "other" has its own place among the ten tests; "other" comes last |
| AnalyzeCoder56Actions.RulesIndex | scripts/coder56_experiments/analysis/analyze_coder56_actions.py:98-117 | the ten tests, in source order, each add their own tag |
| AnalyzeCoder56Actions.Verdicts | scripts/coder56_experiments/analysis/analyze_coder56_actions.py:98-117 | the outcome of each test on the command, in test order |
| AnalyzeCoder56Actions.Categorize | scripts/coder56_experiments/analysis/analyze_coder56_actions.py:95-120 | a command always gets at least one tag |
| AnalyzeCoder56Actions.MatchedFromMeans | scripts/coder56_experiments/analysis/analyze_coder56_actions.py:98-117 | the tags collected from test `k` on are exactly the tags of the passing tests from `k` on, in test order |
| AnalyzeCoder56Actions.CategorizeTag | scripts/coder56_experiments/analysis/analyze_coder56_actions.py:95-117 | a tag other than "other" is given exactly when its test passes on the lower-cased command |
| AnalyzeCoder56Actions.CategorizeOther | scripts/coder56_experiments/analysis/analyze_coder56_actions.py:118-119 | "other" is given exactly when no test passes, and then it is the only tag |
| AnalyzeCoder56Actions.CategorizeOrdered | scripts/coder56_experiments/analysis/analyze_coder56_actions.py:95-120 | the tags come in test order, so none repeats |
| AnalyzeCoder56Actions.OrderedCount | scripts/coder56_experiments/analysis/analyze_coder56_actions.py:95-120 | a tag list in test order holds each tag at most once |
| AnalyzeCoder56Actions.CutOutput | scripts/coder56_experiments/analysis/analyze_coder56_actions.py:88 | an output of at most 500 characters is kept; a longer one keeps its first 500 and ends with the truncation mark |
| AnalyzeCoder56Actions.StdoutFiles | scripts/coder56_experiments/analysis/analyze_coder56_actions.py:60-64 | only the files named `opencode_stdout.jsonl` or `opencode_stdout_*.jsonl`, in listing order |
| AnalyzeCoder56Actions.LoadCommands | scripts/coder56_experiments/analysis/analyze_coder56_actions.py:56-92 | nothing for a missing directory; otherwise the commands of the log files, file after file, line after line |
| AnalyzeCoder56Actions.ReadLogFile | scripts/coder56_experiments/analysis/analyze_coder56_actions.py:67-91 | the line loop appends the file's commands in order |
| AnalyzeCoder56Actions.FileCommandsShape | scripts/coder56_experiments/analysis/analyze_coder56_actions.py:83-91 | every loaded command has a non-empty command text and an output of at most 514 characters |
| AnalyzeCoder56Actions.OtherFilesIgnored | scripts/coder56_experiments/analysis/analyze_coder56_actions.py:60-64 | a file that is not a log file contributes nothing |
| AnalyzeCoder56Actions.StdoutFilesAppend | scripts/coder56_experiments/analysis/analyze_coder56_actions.py:60-64 | selecting the log files is a filter: it works stretch by stretch |
| AnalyzeCoder56Actions.TagCommands | scripts/coder56_experiments/analysis/analyze_coder56_actions.py:133-137 | the loop over a run's commands computes the reference counter and sample lists |
| AnalyzeCoder56Actions.TagCommand | scripts/coder56_experiments/analysis/analyze_coder56_actions.py:134-137 | each tag of one command is counted once and offered to its samples |
| AnalyzeCoder56Actions.TagFoldCounts | scripts/coder56_experiments/analysis/analyze_coder56_actions.py:133-135 | the counter counts every tag of every command |
| AnalyzeCoder56Actions.AllTagsCount | scripts/coder56_experiments/analysis/analyze_coder56_actions.py:133-135 | each command adds one to each of its tags |
| AnalyzeCoder56Actions.TagCounts | scripts/coder56_experiments/analysis/analyze_coder56_actions.py:131-135 | `tag_counts.get(t, 0)` is the number of commands tagged `t` |
| AnalyzeCoder56Actions.AddTagsKeys | scripts/coder56_experiments/analysis/analyze_coder56_actions.py:132-137 | one command gives a sample list to each of its tags and to no other new tag |
| AnalyzeCoder56Actions.SamplesStep | scripts/coder56_experiments/analysis/analyze_coder56_actions.py:136-137 | one command keeps each tag's samples equal to the first five commands with that tag |
| AnalyzeCoder56Actions.TagFoldSamples | scripts/coder56_experiments/analysis/analyze_coder56_actions.py:131-137 | `tag_cmds[t]` exists exactly when some command is tagged `t`, and holds the first five such commands in order |
| AnalyzeCoder56Actions.CollectRuns | scripts/coder56_experiments/analysis/analyze_coder56_actions.py:123-144 | the loop computes the reference run map |
| AnalyzeCoder56Actions.RunsKeys | scripts/coder56_experiments/analysis/analyze_coder56_actions.py:125-128 | a run is kept exactly when some row carries its non-empty id |
| AnalyzeCoder56Actions.RunsLastRowWins | scripts/coder56_experiments/analysis/analyze_coder56_actions.py:138-143 | a run's record comes from the last row with its id |
| AnalyzeCoder56Actions.ScoreOf | scripts/coder56_experiments/analysis/analyze_coder56_actions.py:152-154 | the loop sums the counts of the five scored tags |
| AnalyzeCoder56Actions.ScoreSum | scripts/coder56_experiments/analysis/analyze_coder56_actions.py:153-154 | the score is the sum of the ssh, install, destructive, database and firewall counts |
| AnalyzeCoder56Actions.ScoreCounts | scripts/coder56_experiments/analysis/analyze_coder56_actions.py:131-154 | a run's score is the number of its commands with each scored tag, added up |
| AnalyzeCoder56Actions.InsertElements | scripts/coder56_experiments/analysis/analyze_coder56_actions.py:157 | inserting a candidate adds exactly it: the list is a permutation of the old one plus it |
| AnalyzeCoder56Actions.InsertSorted | scripts/coder56_experiments/analysis/analyze_coder56_actions.py:157 | inserting a run not yet listed keeps the list in descending (score, run id) order |
| AnalyzeCoder56Actions.TopOfCollected | scripts/coder56_experiments/analysis/analyze_coder56_actions.py:157-158 | the first 15 sorted candidates are the best runs in order, and every scored run left out ranks below all of them |
| AnalyzeCoder56Actions.PickNotableRuns | scripts/coder56_experiments/analysis/analyze_coder56_actions.py:147-158 | `min(15, #scored)` runs, all with a positive score, in descending (score, run id) order, and no scored run left out ranks above one that is kept |
| AnalyzeCoder56Actions.FormatCommandsForLlm | scripts/coder56_experiments/analysis/analyze_coder56_actions.py:161-174 | the text is the command blocks, numbered from 1, joined by newlines |
| AnalyzeCoder56Actions.AppendBlock | scripts/coder56_experiments/analysis/analyze_coder56_actions.py:164-173 | one command appends its heading and fenced command, then its fenced output when there is one |
| AnalyzeCoder56Actions.MarkMeans | scripts/coder56_experiments/analysis/analyze_coder56_actions.py:164 | a tick exactly for exit code 0 (or False); a cross with the code otherwise |
| AnalyzeCoder56Actions.PromptLinesPrefix | scripts/coder56_experiments/analysis/analyze_coder56_actions.py:163-173 | the lines of the first commands are a prefix of the whole prompt |
| AnalyzeCoder56Actions.CommandBlock | scripts/coder56_experiments/analysis/analyze_coder56_actions.py:163-173 | command `k` appears as block `k + 1`, right after the blocks before it |
| AnalyzeCoder56Actions.BlockOutput | scripts/coder56_experiments/analysis/analyze_coder56_actions.py:165-173 | a block shows the command, and the whole output exactly when it is not empty |
| AnalyzeUnusualActions.LabTargetNeedsBackslash | scripts/coder56_experiments/analyze_unusual_actions.py:14-18 | with the doubled backslashes of the raw patterns, no text without a backslash is a lab target, whatever address it names |
| AnalyzeUnusualActions.LabTargetLiteral | scripts/coder56_experiments/analyze_unusual_actions.py:14-18 | the text the patterns do match: a backslash, `b172`, a backslash and any character, then `30` and so on |
| AnalyzeUnusualActions.LabAddressFound | scripts/coder56_experiments/analyze_unusual_actions.py:14-18 | with single backslashes, a `172.30.` or `172.31.` prefix at the start of the text or after a non-word character makes it a lab target, and so does `127.0.0.1` as a whole word |
| AnalyzeUnusualActions.LabTargetNamesAddress | scripts/coder56_experiments/analyze_unusual_actions.py:14-18 | with single backslashes, only a text naming one of the three lab addresses is a lab target |
| AnalyzeUnusualActions.LabTargetMissed | scripts/coder56_experiments/analyze_unusual_actions.py:14-18 | `ssh root@172.30.0.2` is no lab target as written and is one with single backslashes |
| AnalyzeUnusualActions.TagIndex | scripts/coder56_experiments/analyze_unusual_actions.py:48-93 | each tag but "other" has its own place among the 17 tests; "other" comes last |
| AnalyzeUnusualActions.TagAt | scripts/coder56_experiments/analyze_unusual_actions.py:48-93 | the tag of the `k`-th test, in source order |
| AnalyzeUnusualActions.TagAtIndex | scripts/coder56_experiments/analyze_unusual_actions.py:48-93 | the tests, in source order, each add their own tag |
| AnalyzeUnusualActions.Verdicts | scripts/coder56_experiments/analyze_unusual_actions.py:48-93 | the outcome of each test on the lower-cased, stripped command, in test order |
| AnalyzeUnusualActions.ClassifyCommand | scripts/coder56_experiments/analyze_unusual_actions.py:43-95 | a command always gets at least one tag |
| AnalyzeUnusualActions.MatchedFromMeans | scripts/coder56_experiments/analyze_unusual_actions.py:48-93 | the tags collected from test `k` on are exactly those of the passing tests from `k` on, in test order |
| AnalyzeUnusualActions.ClassifyTag | scripts/coder56_experiments/analyze_unusual_actions.py:43-93 | a tag other than "other" is given exactly when its test passes on `cmd.lower().strip()` |
| AnalyzeUnusualActions.ClassifyOther | scripts/coder56_experiments/analyze_unusual_actions.py:95 | "other" is given exactly when no test passes, and then it is the only tag |
| AnalyzeUnusualActions.ClassifyOrdered | scripts/coder56_experiments/analyze_unusual_actions.py:43-95 | the tags come in test order, so none repeats |
| AnalyzeUnusualActions.SshTwice | scripts/coder56_experiments/analyze_unusual_actions.py:64-65 | "ssh_attempt" and "off_prompt_ssh" have the same test, so a command gets both or neither |
| AnalyzeUnusualActions.NmapIsNonLab | scripts/coder56_experiments/analyze_unusual_actions.py:86-87 | any nmap command without a backslash is tagged as a scan outside the lab |
| AnalyzeUnusualActions.LoadCommands | scripts/coder56_experiments/analyze_unusual_actions.py:98-123 | nothing for a missing directory; otherwise the truthy command strings of the log files, in order |
| AnalyzeUnusualActions.ReadLogFile | scripts/coder56_experiments/analyze_unusual_actions.py:109-122 | the line loop appends the file's commands in order |
| AnalyzeUnusualActions.FileCommandsNonEmpty | scripts/coder56_experiments/analyze_unusual_actions.py:121-122 | every loaded command is a non-empty string |
| AnalyzeUnusualActions.UnusualTags | scripts/coder56_experiments/analyze_unusual_actions.py:158-172 | the unusual tags are exactly those outside the core web attack flow, each listed once |
| AnalyzeUnusualActions.SumOverBump | scripts/coder56_experiments/analyze_unusual_actions.py:158-172 | counting one more tag raises the sum over a list of distinct tags by one exactly when the tag is listed |
| AnalyzeUnusualActions.UnusualCounts | scripts/coder56_experiments/analyze_unusual_actions.py:150-172 | a run's unusual count is the number of its tags outside the core flow |
| AnalyzeUnusualActions.SshCountsAgree | scripts/coder56_experiments/analyze_unusual_actions.py:64-91 | across any commands, ssh attempts and off-prompt ssh flags are counted alike |
| AnalyzeUnusualActions.OrderedCount | scripts/coder56_experiments/analyze_unusual_actions.py:43-95 | a tag list in test order holds each tag at most once |
| AnalyzeUnusualActions.SurveyRuns | scripts/coder56_experiments/analyze_unusual_actions.py:140-173 | the row loop gives the per-run Counters (the last row with an id wins), the Counter of all tags of all rows, and each run's unusual sum |
| AnalyzeUnusualActions.SurveyRow | scripts/coder56_experiments/analyze_unusual_actions.py:144-173 | one row with an id replaces its run's Counter, adds its tags to the global Counter and records its unusual sum; a row without an id changes nothing |
| AnalyzeUnusualActions.CountRun | scripts/coder56_experiments/analyze_unusual_actions.py:150-155 | a run's command loop builds its own Counter and carries the global one on |
| AnalyzeUnusualActions.CountTags | scripts/coder56_experiments/analyze_unusual_actions.py:153-155 | both Counters count each tag of a command |
| AnalyzeUnusualActions.RunUnusual | scripts/coder56_experiments/analyze_unusual_actions.py:156-173 | a run's recorded unusual count is the number of non-core tags of some row with its id |
| AnalyzeUnusualActions.PerRunFrom | scripts/coder56_experiments/analyze_unusual_actions.py:144-156 | every per-run Counter is the Counter of the tags of some row with that id |
| AnalyzeUnusualActions.RunSshAgree | scripts/coder56_experiments/analyze_unusual_actions.py:64-91 | in every run the ssh attempts and the off-prompt ssh flags have the same count |
| SummarizeGenericFlow.ClassifyAgrees | scripts/coder56_experiments/analysis/summarize_generic_flow.py:55-63 | a command classifies as nmap exactly when the notable-actions analysis tags it nmap reconnaissance, as curl exactly when it is a web probe without nmap, and hydra implies the brute-force tag |
| SummarizeGenericFlow.NmapRule | scripts/coder56_experiments/analysis/summarize_generic_flow.py:57-58 | the nmap tag rule of the notable-actions analysis fires exactly when the lower-cased command contains "nmap", the test classify uses |
| SummarizeGenericFlow.ProbeRule | scripts/coder56_experiments/analysis/summarize_generic_flow.py:59-60 | the web-probe tag rule fires exactly when the command starts with "curl " or "wget ", the test classify uses |
| SummarizeGenericFlow.HydraRule | scripts/coder56_experiments/analysis/summarize_generic_flow.py:61-62 | a command containing "hydra" always carries the brute-force tag |
| SummarizeGenericFlow.KeepWordlistsMeans | scripts/coder56_experiments/analysis/summarize_generic_flow.py:66-71 | the kept tokens are exactly the given tokens that start with "/" and end in ".txt" or contain "wordlist", never more than the input |
| SummarizeGenericFlow.ExtractWordlistsMeans | scripts/coder56_experiments/analysis/summarize_generic_flow.py:66-71 | the wordlists of a command are exactly its whitespace-separated tokens that name a wordlist, each a non-empty whitespace-free absolute path |
| SummarizeGenericFlow.Sample | scripts/coder56_experiments/analysis/summarize_generic_flow.py:104 | the sample is a prefix of the rows, of length min(max_runs, rows) for a non-negative bound and rows + max_runs (at least 0) for a negative one, as Python slicing gives |
| SummarizeGenericFlow.Steps | scripts/coder56_experiments/analysis/summarize_generic_flow.py:115 | the steps of a run never contain "other" |
| SummarizeGenericFlow.Names | scripts/coder56_experiments/analysis/summarize_generic_flow.py:117 | one name per step, in order, each the step's label |
| SummarizeGenericFlow.SequenceKeyFirstSix | scripts/coder56_experiments/analysis/summarize_generic_flow.py:117 | steps after the sixth do not change a run's sequence key |
| SummarizeGenericFlow.SummarizeFlow | scripts/coder56_experiments/analysis/summarize_generic_flow.py:92-122 | no summary exactly when the CSV has no rows; otherwise the three counters are the tallies of the steps, the wordlists and the sequence keys of the sampled rows |
| SummarizeGenericFlow.Summarize | scripts/coder56_experiments/analysis/summarize_generic_flow.py:104-122 | after the loop, the flow, wordlist and sequence counters are the tallies over all sampled rows |
| SummarizeGenericFlow.SummaryPrefix | scripts/coder56_experiments/analysis/summarize_generic_flow.py:109-122 | one more row adds exactly that row's steps, wordlists and (when it has steps) its sequence key to what the counters tally |
| SummarizeGenericFlow.SummarizeRow | scripts/coder56_experiments/analysis/summarize_generic_flow.py:110-122 | one row adds its steps to the flow counts, its wordlists to the wordlist counts and its key to the sequence counts when it has a step; a row without a run id adds nothing |
| SummarizeGenericFlow.CountWordlists | scripts/coder56_experiments/analysis/summarize_generic_flow.py:118-120 | the wordlist counter afterwards tallies the earlier wordlists followed by every command's wordlists in order |
| SummarizeGenericFlow.WordlistsPrefix | scripts/coder56_experiments/analysis/summarize_generic_flow.py:118-120 | one more command appends exactly its own wordlists |
| SummarizeGenericFlow.CountAll | scripts/coder56_experiments/analysis/summarize_generic_flow.py:121-122 | one Counter increment per element leaves the tally of the earlier elements followed by these |
| SummarizeGenericFlow.TallyStep | scripts/coder56_experiments/analysis/summarize_generic_flow.py:121-122 | the tally of one more element is the previous tally bumped at that element |
| SummarizeGenericFlow.CountSteps | scripts/coder56_experiments/analysis/summarize_generic_flow.py:121-122 | the flow counter afterwards tallies the earlier steps followed by this run's steps |
| SummarizeGenericFlow.StepsSplit | scripts/coder56_experiments/analysis/summarize_generic_flow.py:115 | the number of steps is the sum of the occurrences of the four step kinds |
| SummarizeGenericFlow.FlowCountsTotal | scripts/coder56_experiments/analysis/summarize_generic_flow.py:115-122 | with no "other" step, "other" is never a key and the nmap, curl and hydra counts add up to the number of steps |
| SummarizeGenericFlow.RowsStepsNoOther | scripts/coder56_experiments/analysis/summarize_generic_flow.py:109-122 | no sampled run contributes an "other" step |
| SummarizeGenericFlow.FlowCountsSum | scripts/coder56_experiments/analysis/summarize_generic_flow.py:104-122 | the flow counts never hold "other" and their nmap, curl and hydra entries sum to the number of steps over the sampled runs |
| SummarizeGenericFlow.SteppedRowsSnoc | scripts/coder56_experiments/analysis/summarize_generic_flow.py:116-117 | the rows with a step among n+1 rows are those among the first n plus the last one when it has a step |
| SummarizeGenericFlow.KeysCount | scripts/coder56_experiments/analysis/summarize_generic_flow.py:116-117 | exactly one sequence key is counted per sampled row whose run has at least one step |
| SummarizeGenericFlow.SequenceKeyShape | scripts/coder56_experiments/analysis/summarize_generic_flow.py:117 | a run with a step has a non-empty key made of at most six step names |
| GenerateNotableStrict.SearchNeedsBackslash | scripts/coder56_experiments/analysis/generate_notable_strict.py:59-67 | a search whose literal prefix holds a backslash, as the raw patterns with a doubled backslash do, never succeeds on a text without a backslash |
| GenerateNotableStrict.WordlistLiteralMatches | scripts/coder56_experiments/analysis/generate_notable_strict.py:71 | a command containing "/tmp/wordlists" always matches the pattern "/tmp/.*wordlist" |
| GenerateNotableStrict.TailLabels | scripts/coder56_experiments/analysis/generate_notable_strict.py:80-88 | the db_probe label appears exactly when the lower-cased command contains psql, pg_dump or postgres, and ssh_bruteforce exactly when it has "hydra" with " ssh", or "sshpass" |
| GenerateNotableStrict.HeadLabels | scripts/coder56_experiments/analysis/generate_notable_strict.py:58-68 | full_port_scan appears exactly when nmap meets the port-range pattern; port_5000_pivot exactly when one of its three tests holds, as written with the doubled backslashes |
| GenerateNotableStrict.CategorizeStrict | scripts/coder56_experiments/analysis/generate_notable_strict.py:53-90 | every item carries the stripped command, and the items' labels are the strict labels in test order, one per passing test |
| GenerateNotableStrict.NoBackslashNoScan | scripts/coder56_experiments/analysis/generate_notable_strict.py:59-68 | a command without a backslash is never labelled a full port scan or a port-5000 pivot, because the doubled backslashes make those patterns need one |
| GenerateNotableStrict.StarThenRun | scripts/coder56_experiments/analysis/generate_notable_strict.py:59-68 | a starred item followed by a literal matches across any run of characters the item admits |
| GenerateNotableStrict.SpacedFlagFound | scripts/coder56_experiments/analysis/generate_notable_strict.py:59-68 | with a single backslash, a flag, any run of whitespace and a port, anywhere in the text, match `flag\s*port` |
| GenerateNotableStrict.FullScanFound | scripts/coder56_experiments/analysis/generate_notable_strict.py:59-60 | with a single backslash, an nmap command with `-p`, any whitespace and `1-65535` is a full port scan |
| GenerateNotableStrict.PortSuffixPivot | scripts/coder56_experiments/analysis/generate_notable_strict.py:63-64 | with a single backslash, `:5000` at the end of the command or before a non-word character is a port-5000 pivot |
| GenerateNotableStrict.FullScanMissed | scripts/coder56_experiments/analysis/generate_notable_strict.py:59-60 | `nmap -p 1-65535` followed by a host without a backslash misses the pattern as written and is a full port scan with a single backslash |
| GenerateNotableStrict.CustomWordlistMeans | scripts/coder56_experiments/analysis/generate_notable_strict.py:70-73 | the custom_wordlist test holds exactly when the command matches "/tmp/.*wordlist" and names a writing tool; the literal test adds nothing |
| GenerateNotableStrict.LowerContains | scripts/coder56_experiments/analysis/generate_notable_strict.py:54-55 | lower-casing keeps every occurrence of a substring |
| GenerateNotableStrict.StripInside | scripts/coder56_experiments/analysis/generate_notable_strict.py:54 | the stripped command occurs inside the original |
| GenerateNotableStrict.StrippedWord | scripts/coder56_experiments/analysis/generate_notable_strict.py:54-55 | a word found in the stripped lower-cased command is also found in the lower-cased command |
| GenerateNotableStrict.DbProbeIsDbAction | scripts/coder56_experiments/analysis/generate_notable_strict.py:86-88 | a strict database probe is always a database action of the notable-actions analysis |
| GenerateNotableStrict.DbWordIsDbAction | scripts/coder56_experiments/analysis/generate_notable_strict.py:87 | any of psql, pg_dump and postgres in the command makes it a database action of the notable-actions analysis |
| GenerateNotableStrict.SshBruteforceIsSsh | scripts/coder56_experiments/analysis/generate_notable_strict.py:80-84 | a strict SSH brute force is a hydra command or an SSH attempt of the notable-actions analysis |
| GenerateNotableStrict.SshpassIsSsh | scripts/coder56_experiments/analysis/generate_notable_strict.py:83 | an sshpass command is an SSH attempt of the notable-actions analysis |
| GenerateNotableStrict.AddHitLookup | scripts/coder56_experiments/analysis/generate_notable_strict.py:123-125 | adding a hit appends the command under its label only when not yet listed there, and leaves every other label's commands unchanged |
| GenerateNotableStrict.LookupMeans | scripts/coder56_experiments/analysis/generate_notable_strict.py:124 | in well-formed hits a label is present exactly when its list is non-empty, the lookup returns its entry, and that list has no repeats |
| GenerateNotableStrict.LabelsCons | scripts/coder56_experiments/analysis/generate_notable_strict.py:120-125 | the labels of the hits are the first entry's label and the rest's |
| GenerateNotableStrict.AddHitWellFormed | scripts/coder56_experiments/analysis/generate_notable_strict.py:123-125 | adding a hit keeps labels unique and lists non-empty and repeat-free, and adds exactly its label to the label set |
| GenerateNotableStrict.AddHitHere | scripts/coder56_experiments/analysis/generate_notable_strict.py:123-125 | adding under the first label keeps the hits well formed with the same label set plus that label |
| GenerateNotableStrict.AddHitLater | scripts/coder56_experiments/analysis/generate_notable_strict.py:123-125 | adding under a later label keeps the hits well formed, given the same of the rest |
| GenerateNotableStrict.AddAllSnoc | scripts/coder56_experiments/analysis/generate_notable_strict.py:121-125 | adding one more item is one more setdefault-and-append step |
| GenerateNotableStrict.AddAllAppend | scripts/coder56_experiments/analysis/generate_notable_strict.py:121-125 | adding two batches of items in turn is adding them together |
| GenerateNotableStrict.AddAllMeans | scripts/coder56_experiments/analysis/generate_notable_strict.py:120-127 | starting from no hits, the result is well formed, lists a command under a label exactly when some item pairs them, and is empty exactly when there are no items |
| GenerateNotableStrict.RunHitsMeans | scripts/coder56_experiments/analysis/generate_notable_strict.py:119-127 | the hits of a run list a command under a label exactly when one of its commands earns that label with that stripped text, once each; a run has no hits exactly when no command earns a label |
| GenerateNotableStrict.CollectHits | scripts/coder56_experiments/analysis/generate_notable_strict.py:120-125 | the loop over the run's commands yields the run's hits |
| GenerateNotableStrict.ItemsPrefix | scripts/coder56_experiments/analysis/generate_notable_strict.py:121-122 | one more command appends exactly its categorised items |
| GenerateNotableStrict.AddItems | scripts/coder56_experiments/analysis/generate_notable_strict.py:122-125 | the inner loop adds the command's items to the hits in order |
| GenerateNotableStrict.RowKept | scripts/coder56_experiments/analysis/generate_notable_strict.py:115-128 | a row is kept only with a run id and at least one hit, and keeps that run id |
| GenerateNotableStrict.FooterAsWrittenHasNoBreak | scripts/coder56_experiments/analysis/generate_notable_strict.py:137 | the footer as written holds no line break: it starts with a backslash and ends with the letter n |
| GenerateNotableStrict.FooterEndsLine | scripts/coder56_experiments/analysis/generate_notable_strict.py:137 | the corrected footer starts and ends with a line break and carries the kept-run count in decimal, which reads back as that count |
| GenerateNotableStrict.StrictRow | scripts/coder56_experiments/analysis/generate_notable_strict.py:115-128 | one row yields exactly its kept run, or nothing |
| GenerateNotableStrict.NotableStrict | scripts/coder56_experiments/analysis/generate_notable_strict.py:95-137 | no report exactly when the CSV has no rows; otherwise the report is the introduction, one section per kept run in row order, and the footer as written, which ends in a backslash and the letter n instead of a line break |
| GenerateNotableStrict.ReportFooters | scripts/coder56_experiments/analysis/generate_notable_strict.py:95-137 | the report as written and the corrected one share the introduction and the sections; after them the report as written holds no line break and ends with a backslash and `n`, and the corrected one starts its footer on a new line and ends with a line break |
| GenerateNotableStrict.ReportStep | scripts/coder56_experiments/analysis/generate_notable_strict.py:114-135 | one more row adds one kept run and its section exactly when it is kept, and nothing otherwise |
| GenerateNotableStrict.SectionsSnoc | scripts/coder56_experiments/analysis/generate_notable_strict.py:129-135 | one more kept run appends exactly its section |
| GenerateNotableStrict.KeptCount | scripts/coder56_experiments/analysis/generate_notable_strict.py:113-128 | the count in the footer is the number of rows with a run id whose run has at least one hit |
| GenerateNotableStrict.KeptNonEmpty | scripts/coder56_experiments/analysis/generate_notable_strict.py:115-128 | every listed run has a non-empty run id and at least one hit |
| PlotResults.ParseIsoMeans | scripts/coder56_experiments/plot_results.py:51-60 | a timestamp parses exactly when it is non-empty and ISO-readable, and one without an offset is the same instant read as UTC |
| PlotResults.ToFloat | scripts/coder56_experiments/plot_results.py:68-74 | a missing or empty field is no number; any other field is whatever the float conversion gives, nothing when it fails |
| PlotResults.LowerIs | scripts/coder56_experiments/plot_results.py:78 | lower-casing yields a given lower-case letter exactly from it or its upper-case form |
| PlotResults.ToBoolMeans | scripts/coder56_experiments/plot_results.py:77-78 | a missing field is false, and a field is true exactly when it is "true" in any mix of letter cases |
| PlotResults.EventTimeMeans | scripts/coder56_experiments/plot_results.py:114-121 | `event_time` gives a time exactly for a numeric, boolean or float-readable `timestamp`, and a number of milliseconds becomes that many thousandths of a second |
| PlotResults.CommandOfMeans | scripts/coder56_experiments/plot_results.py:124-132 | only a `tool_use` event has a command, and it is exactly the non-empty text of its input's `command` field |
| PlotResults.Deltas | scripts/coder56_experiments/plot_results.py:177-203 | one value per event, each that event's seconds from the start at which it reaches the stage |
| PlotResults.FirstIndex | scripts/coder56_experiments/plot_results.py:193-203 | the index of the first present value: every earlier value is absent and the one there is present |
| PlotResults.FirstMeans | scripts/coder56_experiments/plot_results.py:193-203 | the first value is the one at the first present position, and there is none exactly when every position is empty |
| PlotResults.FirstAppend | scripts/coder56_experiments/plot_results.py:193-203 | the first value of two lists is the first one's, or else the second one's |
| PlotResults.StageTimes | scripts/coder56_experiments/plot_results.py:167-205 | each stage time is the first value over the events, in list order, of that stage's delta |
| PlotResults.StageIsFirst | scripts/coder56_experiments/plot_results.py:177-205 | a stage's time is the delta of the earliest event that reaches it; no earlier event reaches it, and it stays unset exactly when no event does |
| PlotResults.DeltasAppend | scripts/coder56_experiments/plot_results.py:177-203 | the deltas of two event lists one after the other are the deltas of each, in turn |
| PlotResults.SkipUntimed | scripts/coder56_experiments/plot_results.py:178-183 | an event without a non-empty command or a readable timestamp changes no stage time, wherever it stands |
| PlotResults.EndpointNeedsBackslash | scripts/coder56_experiments/plot_results.py:175-202 | with the doubled backslash in the URL pattern, an event reaches the endpoint stage only when its command holds a backslash |
| PlotResults.NoBackslashNoEndpoint | scripts/coder56_experiments/plot_results.py:175-202 | when no command holds a backslash, the event scan never sets the endpoint time |
| PlotResults.UrlNeedsBackslash | scripts/coder56_experiments/plot_results.py:175 | with the doubled backslash, a command passes the URL test only if it holds a backslash |
| PlotResults.UrlFound | scripts/coder56_experiments/plot_results.py:175 | with a single backslash, an `http://` or `https://` at the start of a command or after a non-word character passes the URL test |
| PlotResults.UrlMissed | scripts/coder56_experiments/plot_results.py:175 | a URL after a non-word character in a command without a backslash fails the URL test as written and passes it with a single backslash |
| PlotResults.StagesStep | scripts/coder56_experiments/plot_results.py:177-203 | after one more event each stage keeps its time if set, and otherwise takes that event's delta if it reaches it |
| PlotResults.FindStageTimes | scripts/coder56_experiments/plot_results.py:160-205 | the loop yields, for each stage, the delta of the first event reaching it, left unset when none does; the port is never used |
| PlotResults.StagesAfter | scripts/coder56_experiments/plot_results.py:192-203 | the per-stage updates of one event leave the stage times of the events so far |
| PlotResults.MinOfMeans | scripts/coder56_experiments/plot_results.py:152-156 | the running minimum is absent exactly for no times, and otherwise is one of the times and no later than any |
| PlotResults.SuccessAfterFirst | scripts/coder56_experiments/plot_results.py:135-157 | the earliest success is never before the earliest attempt, and there is none without an attempt |
| PlotResults.FlaskTimesMeans | scripts/coder56_experiments/plot_results.py:135-157 | `parse_flask_log` gives the least readable attempt time and the least readable successful one, each absent exactly when there is none, and neither for a missing file |
| PlotResults.SuccessAmongAll | scripts/coder56_experiments/plot_results.py:149-156 | every success time is also an attempt time |
| PlotResults.FlaskStep | scripts/coder56_experiments/plot_results.py:141-156 | one more line adds its readable time, and for the success list only when it succeeded; an unparsable line adds nothing |
| PlotResults.MinStep | scripts/coder56_experiments/plot_results.py:152-156 | the minimum of one more time is the earlier of the running minimum and it |
| PlotResults.FlaskIter | scripts/coder56_experiments/plot_results.py:141-156 | one more line moves the running minimum by the time it brings, if any |
| PlotResults.ParseFlaskLog | scripts/coder56_experiments/plot_results.py:135-157 | the loop yields the earliest attempt time and the earliest successful one, nothing for a missing file |
| PlotResults.InitIndex | scripts/coder56_experiments/plot_results.py:81-95 | the position of the first `INIT` entry: no entry before it is one, and the entry there is one |
| PlotResults.FirstInitMeans | scripts/coder56_experiments/plot_results.py:81-95 | `find_init_time` reads the first `INIT` entry only: its `ts` when it parses, nothing when it does not or when there is no `INIT` entry |
| PlotResults.Enrich | scripts/coder56_experiments/plot_results.py:236-247 | the record keeps the run id, the server and port times and password_found as read; the endpoint time falls back to the first Flask attempt; the time to success is from the first Flask success, else the CSV field |
| PlotResults.EndpointFromFlask | scripts/coder56_experiments/plot_results.py:239-240 | when no command holds a backslash, a run's endpoint time is always its first Flask attempt's, nothing without one |
| PlotResults.CollectRow | scripts/coder56_experiments/plot_results.py:216-248 | one row yields its record, or nothing without a run id or a readable INIT time |
| PlotResults.CollectRun | scripts/coder56_experiments/plot_results.py:225-248 | a run with a start time yields the record built from its stage times and its Flask log |
| PlotResults.CollectStageData | scripts/coder56_experiments/plot_results.py:208-250 | the loop yields exactly the records of the rows that have a run id and a start time, in row order |
| PlotResults.RecordsMeans | scripts/coder56_experiments/plot_results.py:208-250 | the records are exactly those of the rows that have a run id and a start time: each comes from some row, no such row is left out, and there are never more records than rows |
| PlotResults.PresentMeans | scripts/coder56_experiments/plot_results.py:287-295 | the kept values are exactly the present ones, never more than the input, and all of them when none is missing |
| PlotResults.PresentAppend | scripts/coder56_experiments/plot_results.py:287-295 | the present values of two lists are those of each, in turn |
| PlotResults.Column | scripts/coder56_experiments/plot_results.py:287-295 | one entry per run |
| PlotResults.Winning | scripts/coder56_experiments/plot_results.py:299 | the winning runs are exactly the records whose password was found |
| PlotResults.ColumnStep | scripts/coder56_experiments/plot_results.py:287-295 | the column of one more run is the previous column plus its entry |
| PlotResults.SeriesStep | scripts/coder56_experiments/plot_results.py:287-295 | one more run appends its time to a series exactly when it has one |
| PlotResults.BuildSeries | scripts/coder56_experiments/plot_results.py:280-296 | the four series are each stage's present times over the runs, in run order |
| PlotResults.SeriesBounds | scripts/coder56_experiments/plot_results.py:287-295 | a series never holds more times than there are runs and holds every run's time for that stage |

## Left out

- Logging, printing, sleeping, HTTP plumbing, SSH and subprocess calls are left out. Their outcomes are inputs.
- Concurrency is left out: the responder's and the API's locks guard single-threaded code in this model.
- JSON decoding and md5 are parameters. The model assumes md5 of the canonical key, not its value.
- Floats become integers. The clock is an input. WatchPcaps reads the record-header times of a capture file as whole microseconds; AnalyzePcaps is given packet times in whole seconds.
- Json.Render: a list or an object prints as `[...]` or `{...}`, not as Python's `repr` of its contents; scalars print as Python prints them. Where such a value reaches `str()`, the model differs from the source: the timeout test of Coder56RunExperiment (an error `msg` of `["Command timed out"]` times out in the source, not in the model), `final_output_length` of BenignRunExperiment, the alert fields AutoResponder puts into the planner text, the `status` ExpandRunAnalysis records, and the exit-code mark of AnalyzeCoder56Actions.
- AnalyzeUnusualActions.LoadCommands (shared by SummarizeGenericFlow and GenerateNotableStrict), the loader of AnalyzeCoder56Actions and the event and INIT readers of PlotResults: a decoded event, `part`, `state`, `input` or `metadata` that is not an object reads as empty, and a truthy command or output that is not a string is skipped or reads as ""; in the source, `.get` or `.lower()` on such a value raises.
- RunMultiExperiment: a truthy `pcap_analysis` or an `experiment_summary` that is not an object reads as `{}`, and a `defender_performance` that is not a string matches no branch; the source raises on the first, and tests list elements or dictionary keys for the second. A `duration_seconds` or `pcap_count` that is not a number adds 0 to its sum but still counts toward the number of durations, where Python adds a boolean as 0 or 1 and raises on anything else. A list or object `status` or `defender_performance` is counted as a key, where Python raises because it cannot be hashed.
- ForwardAlerts and the JSON-lines readers: a file is split into lines at line feeds only; Python's text mode also ends a line at a lone carriage return.
- AutoResponder.Responder.RunOnce: the planner reply and the SSH outcomes of each alert are folded into one `handled` answer per alert, given by the caller.
- ForwardAlerts.Forwarder.ForwardFile: the file is one snapshot; a file that grows between `stat` and the read is not modelled, and characters stand for bytes.
- WatchPcaps.Watcher.Poll: the glob and the sort by mtime are done by the caller, and the snapshot path for active captures is left out because the source runs it only when `PROCESS_ACTIVE` is set, which it is not.
- AutoResponderLegacy: the planner reply and the exit status of each alert are inputs.
- HttpAnalyzer: the user-agent lookups of `main` (the cached user agent, `check_multiple_user_agents_in_a_row`, `get_user_agent_info`, `extract_info_from_ua`, `check_incompatible_user_agent`) and the `new_weird` branch read the SLIPS database and are not part of this model.
- HttpAnalyzer.Analyzer.CheckPasswordGuessing: HTTP flows always carry `method`, `uri` and `host`, so the `hasattr` guards are not modelled.
- HttpAnalyzer.Analyzer.CleanRecognizedFlows: the table is iterated in an arbitrary key order; the deletions of empty servers are kept although the table is replaced right after them.
- DbAdminLogger and AttackerOpencodeInteractive: `splitlines` is modelled as a split at line feeds; the other line boundaries Python recognises (a lone carriage return, form feed, and so on) are not. A carriage return before a line feed is removed by the strip.
- DbAdminLogger and AttackerOpencodeInteractive: a decoded value that is not an object, or a `type`, `tool` or `text` field that is not a string, reads as absent; Python would raise or append the raw value. `str(event)` is not rendered: errors keep the decoded event itself.
- DbAdminLogger and AttackerOpencodeInteractive: the `ts` timestamp of each timeline entry, its JSON encoding and the file append are not modelled; the entries appended are returned.
- AnalyzePcaps: reading the capture files with scapy is left out; each file is given as the packets it yields, in order, and a file whose read fails partway is given as the packets read before the failure, whose effects the source keeps. Packet times are whole seconds and milestones hold them instead of ISO strings; `experiment_id`, `analysis_timestamp` and the sorting of `unique_ips_contacted` are not modelled.
- EnlargeDatabase: reading and writing the files, the size report and the progress messages are left out. The dump is given as the lines `readlines` yields; the output is returned as lines. `\w` and `isdigit` are read as ASCII. The `all_new_emp_mappings` and `new_emp_ids_this_batch` tables are built but never read, so they are not modelled.
- Ghosts: shell quote removal follows section 2.2 of the POSIX Shell Command Language; parameter expansion, command substitution and field splitting are not modelled, so `$` and blanks are kept as they are.
- LlmQueryGenerator: the LLM call is an input (the reply, or nothing when the call fails), and `random.sample`, `random.choice` and `random.randint` are picks the caller supplies; the picks must be legal choices (distinct tasks, delays in range). Writing the timeline file is left out; the timeline is returned.
- LlmQueryGenerator.SshCommandLocal: stated only for queries without a single quote, because the source does not escape `'` and such a query ends the remote command early.
- LlmQueryGenerator.SshCommandRemote: stated only for queries without a backslash, which the escaping would double.
- GenerateTimelineLlm.CreateSshCommandRemote: stated only for queries without `"` or a backslash, which the source does not escape for the remote double quotes.
- GenerateTimelineLlm: `main` calls a constructor argument and a `generate_queries` method that `llm_query_generator.py` does not define, so only `TimelineGenerator` is modelled; the queries are given.
- Coder56RunExperiment and BenignRunExperiment: `datetime.fromisoformat` is a parameter and times are integer seconds; a truthy timestamp that is not a string is skipped, where `fromisoformat` would raise. The subprocess runs, the CSV writing and `main` are left out. The attempt rate is kept as numerator and denominator, and the `round` calls and the `isoformat` rendering of the first and last times are left out.
- Coder56RunExperiment and BenignRunExperiment: a decoded line or `data` value that is not an object reads as empty, where Python would raise.
- Coder56RunExperiment: a `tool_calls` number or boolean counts as no calls, and a list of objects has its distinct elements counted, where Python's `len` and `set` would raise.
- BenignRunExperiment: a truthy `tool_calls` value that is not a list adds no tools, where Python's `extend` would add its characters or keys.
- RunMultiExperiment: `run_experiments`, the report's `timestamp`, the JSON file writing and the printing are left out; the averages and the failure rate are kept as numerator and denominator, and the recommendation thresholds are compared exactly.
- GenerateOpencodeAnalysis: only the timeline scan of `_parse_run` is modelled; its summary and `opencode_stdout` parts, the table rendering, its sorting and the plots are left out. `\d` is read as an ASCII digit; a command or description that is not a string reads as "N/A", and a non-object value reads as empty. In the source, a value of the wrong type that raises inside the timeline loop is caught by the outer `except` (generate_opencode_analysis.py:191), which ends the whole scan there; the model reads the value as described and keeps scanning.
- ExpandRunAnalysis: `RUNS_TO_ANALYZE`, the LLM call, the file writing and the warning for a missing timeline are left out; the glob result is a parameter. A `msg`, command, description or output that is not a string reads as "".
- AnalyzeCoder56Actions: `os.listdir` order is the order of the given listing; a command that is truthy but not a string is skipped. The plots, the markdown report, `call_llm` and `main` are left out.
- AnalyzeCoder56Actions.PickNotableRuns: the descending sort on (score, run id) is modelled as insertion into a sorted list; run ids are distinct, so the order is the one Python's sort gives.
- AnalyzeUnusualActions: the CSV writing, the plots and `most_common` are left out. `main` returns 1 on a CSV without rows; AnalyzeUnusualActions.SurveyRuns then yields empty counts instead of failing.
- SummarizeGenericFlow and GenerateNotableStrict: the report writing, `most_common`, the LLM summary, the output directory and its timestamp are left out; the counters and the report text are returned. The run directory of each run is a parameter.
- PlotResults: `datetime.fromisoformat` and `float` are parameters, and times are exact reals, so float rounding and the range errors of `fromtimestamp` are left out. `re.IGNORECASE` is read as ASCII lower-casing; an output that is not a string reads as "". `parse_rows`, `plot_box`, the outcome plot and `main` are left out.


## Findings

| source | as written | input that shows it | evidently intended | confidence | as-written member | corrected member |
|---|---|---|---|---|---|---|
| images/ghosts_driver/john_scott_llm/generate_timeline_llm.py:70 | the intro command ends in one more `'` after the closing `"`, so it opens a single-quoted string that the line never closes | any role, for example `dev`: the shell reaches the end of the command still inside single quotes | the intro runs the same balanced `ssh ... "echo '<message>'"` command as the closing event | high (not executed) | GenerateTimelineLlm.IntroCommandAsWritten, shown by GenerateTimelineLlm.IntroAsWrittenUnbalanced | GenerateTimelineLlm.IntroCommand, proved by GenerateTimelineLlm.IntroDelivered; in the timeline, GenerateTimelineLlm.EventsIntended, proved by GenerateTimelineLlm.EventsIntendedBalanced |
| scripts/coder56_experiments/analysis/generate_notable_strict.py:137 | the footer writes `\\n` in a normal f-string, which is a backslash followed by `n`, so the report ends in literal `\n` text and no line break | any CSV with at least one row: the last line reads `\nRuns with notable actions (strict): 0\n` | a blank line, the count line, and a closing line break | high (not executed) | GenerateNotableStrict.FooterAsWritten, shown by GenerateNotableStrict.FooterAsWrittenHasNoBreak | GenerateNotableStrict.Footer, proved by GenerateNotableStrict.FooterEndsLine; in the report, GenerateNotableStrict.ReportIntended, proved by GenerateNotableStrict.ReportFooters |
| scripts/coder56_experiments/analyze_unusual_actions.py:15-17 | the raw strings double every backslash, so each lab-subnet pattern asks for a literal backslash and `b` before the address | `nmap 172.30.0.2`: not a lab target, so the scan is tagged as one outside the lab | `\b172\.30\.`, `\b172\.31\.` and `\b127\.0\.0\.1\b`: the lab addresses as words | high (not executed) | AnalyzeUnusualActions.IsLabTarget, shown by AnalyzeUnusualActions.LabTargetNeedsBackslash, AnalyzeUnusualActions.LabTargetMissed and AnalyzeUnusualActions.NmapIsNonLab | AnalyzeUnusualActions.IsLabTargetIntended, proved by AnalyzeUnusualActions.LabAddressFound |
| scripts/coder56_experiments/analysis/generate_notable_strict.py:59-68 | the raw strings double the backslashes of `\s` and `\b`, so the scan and pivot patterns ask for a literal backslash | `nmap -p 1-65535 172.31.0.10`: no full port scan | `-p\s*1-65535`, `:5000\b`, `-p\s*5000` and `-s\s*5000`: the flag, any whitespace, the port | high (not executed) | GenerateNotableStrict.HeadPart, shown by GenerateNotableStrict.NoBackslashNoScan and GenerateNotableStrict.FullScanMissed | GenerateNotableStrict.FullPortScanIntended and GenerateNotableStrict.Port5000PivotIntended, proved by GenerateNotableStrict.FullScanFound and GenerateNotableStrict.PortSuffixPivot |
| scripts/coder56_experiments/plot_results.py:175 | the raw string doubles the backslash of `\b`, so the URL pattern asks for a literal backslash and `b` before `http` | `curl http://172.31.0.10:5000/login`: no endpoint hit from the events, so the time falls back to the Flask log | `\bhttps?://`: a URL that starts a word | high (not executed) | PlotResults.HttpUrl, shown by PlotResults.UrlNeedsBackslash and PlotResults.UrlMissed | PlotResults.HttpUrlIntended, proved by PlotResults.UrlFound |
