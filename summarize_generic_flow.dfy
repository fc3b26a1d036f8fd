/**
 * The generic-flow summary of attacker runs: the step each command counts
 * as, the wordlist paths it names, and the tool, wordlist and sequence
 * counts over the sampled runs.
 */
module SummarizeGenericFlow {
  import opened Wrappers
  import opened Text
  import opened Json
  import opened Counting
  import Actions = AnalyzeCoder56Actions
  import Unusual = AnalyzeUnusualActions

  // ---- classify ----

  /** The steps `classify` tells apart. */
  datatype Step = Nmap | Curl | Hydra | OtherStep

  /** `classify`: the first of nmap, a curl or wget download, hydra, in that order of priority. */
  function Classify(cmd: string): Step {
    var c := Lower(cmd);
    if Contains(c, "nmap") then Nmap
    else if StartsWith(c, "curl ") || StartsWith(c, "wget ") then Curl
    else if Contains(c, "hydra") then Hydra
    else OtherStep
  }

  /** The step's name, as it appears in a sequence key. */
  function StepName(s: Step): string {
    match s
    case Nmap => "nmap"
    case Curl => "curl"
    case Hydra => "hydra"
    case OtherStep => "other"
  }

  /**
   * The steps agree with the tags of the notable-actions analysis: nmap is
   * its nmap reconnaissance, curl is a web probe without nmap, hydra is a
   * brute-force tool without either, and a command with none of those
   * three tags is "other".
   */
  lemma ClassifyAgrees(cmd: string)
    ensures Classify(cmd) == Nmap <==> Actions.ReconNmap in Actions.Categorize(cmd)
    ensures Classify(cmd) == Curl <==>
      Actions.ReconNmap !in Actions.Categorize(cmd) && Actions.WebProbe in Actions.Categorize(cmd)
    ensures Classify(cmd) == Hydra ==> Actions.BruteforceTool in Actions.Categorize(cmd)
  {
    Actions.CategorizeTag(cmd, Actions.ReconNmap);
    Actions.CategorizeTag(cmd, Actions.WebProbe);
    Actions.CategorizeTag(cmd, Actions.BruteforceTool);
    NmapRule(Lower(cmd));
    ProbeRule(Lower(cmd));
    HydraRule(Lower(cmd));
  }

  lemma NmapRule(c: string)
    ensures Actions.Rule(Actions.ReconNmap, c) <==> Contains(c, "nmap")
  {
    var ws := ["nmap"];
    assert Actions.TestOf(Actions.ReconNmap) == Actions.AnyOf(ws);
    if Contains(c, "nmap") {
      assert Contains(c, ws[0]);
    }
  }

  lemma ProbeRule(c: string)
    ensures Actions.Rule(Actions.WebProbe, c) <==> StartsWith(c, "curl ") || StartsWith(c, "wget ")
  {
    var ws := ["curl ", "wget "];
    assert Actions.TestOf(Actions.WebProbe) == Actions.StartsWithAnyOf(ws);
    if StartsWith(c, "curl ") {
      assert StartsWith(c, ws[0]);
    } else if StartsWith(c, "wget ") {
      assert StartsWith(c, ws[1]);
    }
  }

  lemma HydraRule(c: string)
    ensures Contains(c, "hydra") ==> Actions.Rule(Actions.BruteforceTool, c)
  {
    var ws := ["hydra", "medusa", "patator", "ncrack"];
    assert Actions.TestOf(Actions.BruteforceTool) == Actions.AnyOf(ws);
    if Contains(c, "hydra") {
      assert Contains(c, ws[0]);
    }
  }

  // ---- extract_wordlists ----

  /** A token names a wordlist: an absolute path ending in ".txt" or containing "wordlist". */
  predicate IsWordlist(token: string) {
    StartsWith(token, "/") && (EndsWith(token, ".txt") || Contains(token, "wordlist"))
  }

  /** The wordlist tokens among `tokens`, in order. */
  function KeepWordlists(tokens: seq<string>): seq<string>
    decreases |tokens|
  {
    if tokens == [] then []
    else (if IsWordlist(tokens[0]) then [tokens[0]] else []) + KeepWordlists(tokens[1..])
  }

  /** `extract_wordlists`. */
  function ExtractWordlists(cmd: string): seq<string> {
    KeepWordlists(Words(cmd))
  }

  /** Exactly the wordlist tokens are kept, each a whitespace-free absolute path, in their order. */
  lemma {:induction false} KeepWordlistsMeans(tokens: seq<string>)
    ensures forall w :: w in KeepWordlists(tokens) <==> w in tokens && IsWordlist(w)
    ensures |KeepWordlists(tokens)| <= |tokens|
    decreases |tokens|
  {
    if tokens != [] {
      KeepWordlistsMeans(tokens[1..]);
      assert tokens == [tokens[0]] + tokens[1..];
    }
  }

  /** The wordlists of a command are its whitespace-separated tokens that name a wordlist. */
  lemma ExtractWordlistsMeans(cmd: string)
    ensures forall w :: w in ExtractWordlists(cmd) <==> w in Words(cmd) && IsWordlist(w)
    ensures forall w | w in ExtractWordlists(cmd) :: IsWord(w) && w[0] == '/'
  {
    KeepWordlistsMeans(Words(cmd));
    forall w | w in ExtractWordlists(cmd)
      ensures IsWord(w) && w[0] == '/'
    {
      var k :| 0 <= k < |Words(cmd)| && Words(cmd)[k] == w;
      assert IsWord(w);
      assert StartsWith(w, "/");
      assert w[0] == "/"[0];
    }
  }

  // ---- the counts of main ----

  /** `rows[:max_runs]`, where a negative bound counts from the end. */
  function Sample<T>(rows: seq<T>, maxRuns: int): (r: seq<T>)
    ensures r <= rows
    ensures maxRuns >= 0 ==> |r| == Min(maxRuns, |rows|)
    ensures maxRuns < 0 ==> |r| == Max(0, |rows| + maxRuns)
  {
    if maxRuns >= 0 then rows[..Min(maxRuns, |rows|)] else rows[..Max(0, |rows| + maxRuns)]
  }

  /** `[classify(c) for c in cmds if classify(c) != "other"]`. */
  function Steps(cmds: seq<string>): (r: seq<Step>)
    ensures OtherStep !in r
    decreases |cmds|
  {
    if cmds == [] then []
    else Steps(cmds[..|cmds| - 1]) + (if Classify(cmds[|cmds| - 1]) != OtherStep then [Classify(cmds[|cmds| - 1])] else [])
  }

  /** The names of the steps. */
  function Names(steps: seq<Step>): (r: seq<string>)
    ensures |r| == |steps| && forall i | 0 <= i < |steps| :: r[i] == StepName(steps[i])
  {
    seq(|steps|, i requires 0 <= i < |steps| => StepName(steps[i]))
  }

  /** The sequence key of a run: its first six steps joined by " > ". */
  function SequenceKey(steps: seq<Step>): string {
    Join(" > ", Names(steps[..Min(6, |steps|)]))
  }

  /** The key looks at the first six steps only. */
  lemma SequenceKeyFirstSix(steps: seq<Step>, more: seq<Step>)
    requires |steps| >= 6
    ensures SequenceKey(steps + more) == SequenceKey(steps)
  {
    assert (steps + more)[..6] == steps[..6];
  }

  /** The wordlists of all commands, command after command. */
  function AllWordlists(cmds: seq<string>): seq<string>
    decreases |cmds|
  {
    if cmds == [] then [] else AllWordlists(cmds[..|cmds| - 1]) + ExtractWordlists(cmds[|cmds| - 1])
  }

  /** The commands of a row's run; none for a row without a run id. */
  function RowCommands(row: Actions.Row, dirs: Actions.Listing, parse: Parser): seq<string> {
    match Actions.RunIdOf(row)
    case None => []
    case Some(id) => Unusual.DirCommands(dirs(id), parse)
  }

  /** The sequence keys of the rows, one for each row whose run has a step. */
  function Keys(rows: seq<Actions.Row>, dirs: Actions.Listing, parse: Parser): seq<string>
    decreases |rows|
  {
    if rows == [] then []
    else
      var steps := Steps(RowCommands(rows[|rows| - 1], dirs, parse));
      Keys(rows[..|rows| - 1], dirs, parse) + (if steps != [] then [SequenceKey(steps)] else [])
  }

  /** The steps of all rows, row after row. */
  function RowsSteps(rows: seq<Actions.Row>, dirs: Actions.Listing, parse: Parser): seq<Step>
    decreases |rows|
  {
    if rows == [] then [] else RowsSteps(rows[..|rows| - 1], dirs, parse) + Steps(RowCommands(rows[|rows| - 1], dirs, parse))
  }

  /** The wordlists of all rows, row after row. */
  function RowsWordlists(rows: seq<Actions.Row>, dirs: Actions.Listing, parse: Parser): seq<string>
    decreases |rows|
  {
    if rows == [] then [] else RowsWordlists(rows[..|rows| - 1], dirs, parse) + AllWordlists(RowCommands(rows[|rows| - 1], dirs, parse))
  }

  /** The three Counters of `main`. */
  datatype Summary = Summary(flowCounts: map<Step, nat>, wordlists: map<string, nat>, sequences: map<string, nat>)

  /** `main`: nothing for a CSV without rows, otherwise the counts over the sampled rows. */
  method SummarizeFlow(rows: seq<Actions.Row>, maxRuns: int, dirs: Actions.Listing, parse: Parser) returns (r: Option<Summary>)
    ensures r.None? <==> rows == []
    ensures r.Some? ==> var sample := Sample(rows, maxRuns);
      && r.value.flowCounts == Tally(RowsSteps(sample, dirs, parse))
      && r.value.wordlists == Tally(RowsWordlists(sample, dirs, parse))
      && r.value.sequences == Tally(Keys(sample, dirs, parse))
  {
    if rows == [] {
      return None;
    }
    var s := Summarize(rows, maxRuns, dirs, parse);
    return Some(s);
  }

  /** The loop of `main` over the sampled rows. */
  method Summarize(rows: seq<Actions.Row>, maxRuns: int, dirs: Actions.Listing, parse: Parser) returns (s: Summary)
    ensures var sample := Sample(rows, maxRuns);
      && s.flowCounts == Tally(RowsSteps(sample, dirs, parse))
      && s.wordlists == Tally(RowsWordlists(sample, dirs, parse))
      && s.sequences == Tally(Keys(sample, dirs, parse))
  {
    var sampleRows := Sample(rows, maxRuns);
    s := Summary(map[], map[], map[]);
    var i := 0;
    while i < |sampleRows|
      invariant 0 <= i <= |sampleRows|
      invariant s.flowCounts == Tally(RowsSteps(sampleRows[..i], dirs, parse))
      invariant s.wordlists == Tally(RowsWordlists(sampleRows[..i], dirs, parse))
      invariant s.sequences == Tally(Keys(sampleRows[..i], dirs, parse))
    {
      SummaryPrefix(sampleRows, i, dirs, parse);
      s := SummarizeRow(s, sampleRows[i], dirs, parse,
        RowsSteps(sampleRows[..i], dirs, parse), RowsWordlists(sampleRows[..i], dirs, parse), Keys(sampleRows[..i], dirs, parse));
      i := i + 1;
    }
    assert sampleRows[..i] == sampleRows;
  }

  lemma SummaryPrefix(rows: seq<Actions.Row>, i: nat, dirs: Actions.Listing, parse: Parser)
    requires i < |rows|
    ensures RowsSteps(rows[..i + 1], dirs, parse) == RowsSteps(rows[..i], dirs, parse) + Steps(RowCommands(rows[i], dirs, parse))
    ensures RowsWordlists(rows[..i + 1], dirs, parse) ==
      RowsWordlists(rows[..i], dirs, parse) + AllWordlists(RowCommands(rows[i], dirs, parse))
    ensures var steps := Steps(RowCommands(rows[i], dirs, parse));
      Keys(rows[..i + 1], dirs, parse) == Keys(rows[..i], dirs, parse) + (if steps != [] then [SequenceKey(steps)] else [])
  {
    assert rows[..i + 1][..i] == rows[..i];
  }

  /** One sampled row. */
  method SummarizeRow(s: Summary, row: Actions.Row, dirs: Actions.Listing, parse: Parser,
                      ghost fs: seq<Step>, ghost ws: seq<string>, ghost ks: seq<string>) returns (s': Summary)
    requires s.flowCounts == Tally(fs) && s.wordlists == Tally(ws) && s.sequences == Tally(ks)
    ensures var cmds := RowCommands(row, dirs, parse);
      var steps := Steps(cmds);
      && s'.flowCounts == Tally(fs + steps)
      && s'.wordlists == Tally(ws + AllWordlists(cmds))
      && s'.sequences == Tally(ks + (if steps != [] then [SequenceKey(steps)] else []))
  {
    var runId := Actions.RunIdOf(row);
    if runId.None? {
      assert fs + [] == fs && ws + [] == ws && ks + [] == ks;
      return s;
    }
    var cmds := Unusual.LoadCommands(dirs(runId.value), parse);
    var steps := Steps(cmds);
    var sequences := s.sequences;
    if steps != [] {
      TallySnoc(ks, SequenceKey(steps));
      sequences := Bump(sequences, Join(" > ", Names(steps[..Min(6, |steps|)])));
    } else {
      assert ks + [] == ks;
    }
    var wordlists := CountWordlists(cmds, s.wordlists, ws);
    var flowCounts := CountSteps(steps, s.flowCounts, fs);
    s' := Summary(flowCounts, wordlists, sequences);
  }

  /** `for c in cmds: for wl in extract_wordlists(c): wordlists[wl] += 1`. */
  method CountWordlists(cmds: seq<string>, wordlists: map<string, nat>, ghost ws: seq<string>) returns (w: map<string, nat>)
    requires wordlists == Tally(ws)
    ensures w == Tally(ws + AllWordlists(cmds))
  {
    w := wordlists;
    assert ws + AllWordlists(cmds[..0]) == ws;
    var j := 0;
    while j < |cmds|
      invariant 0 <= j <= |cmds|
      invariant w == Tally(ws + AllWordlists(cmds[..j]))
    {
      WordlistsPrefix(cmds, ws, j);
      w := CountAll(ExtractWordlists(cmds[j]), w, ws + AllWordlists(cmds[..j]));
      j := j + 1;
    }
    assert cmds[..j] == cmds;
  }

  lemma WordlistsPrefix(cmds: seq<string>, ws: seq<string>, j: nat)
    requires j < |cmds|
    ensures ws + AllWordlists(cmds[..j + 1]) == ws + AllWordlists(cmds[..j]) + ExtractWordlists(cmds[j])
  {
    assert cmds[..j + 1][..j] == cmds[..j];
  }

  /** One Counter update per element, in order. */
  method CountAll<T(==,!new)>(xs: seq<T>, counts: map<T, nat>, ghost ks: seq<T>) returns (c: map<T, nat>)
    requires counts == Tally(ks)
    ensures c == Tally(ks + xs)
  {
    c := counts;
    assert ks + xs[..0] == ks;
    var k := 0;
    while k < |xs|
      invariant 0 <= k <= |xs|
      invariant c == Tally(ks + xs[..k])
    {
      TallyStep(ks, xs, k);
      c := Bump(c, xs[k]);
      k := k + 1;
    }
    assert xs[..k] == xs;
  }

  lemma TallyStep<T(!new)>(ks: seq<T>, xs: seq<T>, k: nat)
    requires k < |xs|
    ensures Tally(ks + xs[..k + 1]) == Bump(Tally(ks + xs[..k]), xs[k])
  {
    TallySnoc(ks + xs[..k], xs[k]);
    assert ks + xs[..k] + [xs[k]] == ks + xs[..k + 1];
  }

  /** `for s in steps: flow_counts[s] += 1`. */
  method CountSteps(steps: seq<Step>, flowCounts: map<Step, nat>, ghost fs: seq<Step>) returns (f: map<Step, nat>)
    requires flowCounts == Tally(fs)
    ensures f == Tally(fs + steps)
  {
    f := CountAll(steps, flowCounts, fs);
  }

  // ---- properties of the counts ----

  function CountOf<T>(counts: map<T, nat>, k: T): nat {
    if k in counts then counts[k] else 0
  }

  lemma {:induction false} StepsSplit(steps: seq<Step>)
    ensures |steps| == multiset(steps)[Nmap] + multiset(steps)[Curl] + multiset(steps)[Hydra] + multiset(steps)[OtherStep]
    decreases |steps|
  {
    if steps != [] {
      var init := steps[..|steps| - 1];
      StepsSplit(init);
      var last := steps[|steps| - 1];
      SplitLast(steps);
      assert multiset(steps) == multiset(init) + multiset{last};
      assert multiset(steps)[Nmap] == multiset(init)[Nmap] + (if last == Nmap then 1 else 0);
      assert multiset(steps)[Curl] == multiset(init)[Curl] + (if last == Curl then 1 else 0);
      assert multiset(steps)[Hydra] == multiset(init)[Hydra] + (if last == Hydra then 1 else 0);
      assert multiset(steps)[OtherStep] == multiset(init)[OtherStep] + (if last == OtherStep then 1 else 0);
    }
  }

  /** The tool counts add up to the number of steps, and "other" is never counted. */
  lemma FlowCountsTotal(steps: seq<Step>)
    requires OtherStep !in steps
    ensures OtherStep !in Tally(steps)
    ensures CountOf(Tally(steps), Nmap) + CountOf(Tally(steps), Curl) + CountOf(Tally(steps), Hydra) == |steps|
  {
    TallyKeys(steps);
    CountOrZero(steps, Nmap);
    CountOrZero(steps, Curl);
    CountOrZero(steps, Hydra);
    StepsSplit(steps);
  }

  /** Every step of every sampled run is a tool step. */
  lemma {:induction false} RowsStepsNoOther(rows: seq<Actions.Row>, dirs: Actions.Listing, parse: Parser)
    ensures OtherStep !in RowsSteps(rows, dirs, parse)
    decreases |rows|
  {
    if rows != [] {
      RowsStepsNoOther(rows[..|rows| - 1], dirs, parse);
    }
  }

  /** Summed over the tools, `flow_counts` is the number of steps of the sampled runs. */
  lemma FlowCountsSum(rows: seq<Actions.Row>, maxRuns: int, dirs: Actions.Listing, parse: Parser, s: Summary)
    requires s.flowCounts == Tally(RowsSteps(Sample(rows, maxRuns), dirs, parse))
    ensures OtherStep !in s.flowCounts
    ensures CountOf(s.flowCounts, Nmap) + CountOf(s.flowCounts, Curl) + CountOf(s.flowCounts, Hydra) ==
      |RowsSteps(Sample(rows, maxRuns), dirs, parse)|
  {
    RowsStepsNoOther(Sample(rows, maxRuns), dirs, parse);
    FlowCountsTotal(RowsSteps(Sample(rows, maxRuns), dirs, parse));
  }

  /** The row's run has at least one tool step, so it gets a sequence key. */
  predicate Stepped(row: Actions.Row, dirs: Actions.Listing, parse: Parser) {
    Steps(RowCommands(row, dirs, parse)) != []
  }

  /** The positions of the rows whose run has a step. */
  function SteppedRows(rows: seq<Actions.Row>, dirs: Actions.Listing, parse: Parser): set<nat> {
    Marked(seq(|rows|, i requires 0 <= i < |rows| => Stepped(rows[i], dirs, parse)))
  }

  lemma SteppedRowsSnoc(rows: seq<Actions.Row>, dirs: Actions.Listing, parse: Parser)
    requires rows != []
    ensures var n := |rows| - 1;
      SteppedRows(rows, dirs, parse) ==
        SteppedRows(rows[..n], dirs, parse) + (if Stepped(rows[n], dirs, parse) then {n} else {})
      && n !in SteppedRows(rows[..n], dirs, parse)
  {
    var n := |rows| - 1;
    var flags := seq(|rows|, i requires 0 <= i < |rows| => Stepped(rows[i], dirs, parse));
    var init := seq(n, i requires 0 <= i < n => Stepped(rows[..n][i], dirs, parse));
    assert flags == init + [Stepped(rows[n], dirs, parse)];
    MarkedSnoc(init, Stepped(rows[n], dirs, parse));
  }

  /** A sequence key is counted exactly once for each sampled row whose run has at least one step. */
  lemma {:induction false} KeysCount(rows: seq<Actions.Row>, dirs: Actions.Listing, parse: Parser)
    ensures |Keys(rows, dirs, parse)| == |SteppedRows(rows, dirs, parse)|
    decreases |rows|
  {
    if rows != [] {
      KeysCount(rows[..|rows| - 1], dirs, parse);
      SteppedRowsSnoc(rows, dirs, parse);
    }
  }

  /** Each sequence key is non-empty and made of at most six step names. */
  lemma SequenceKeyShape(steps: seq<Step>)
    requires steps != [] && OtherStep !in steps
    ensures SequenceKey(steps) != []
    ensures |Names(steps[..Min(6, |steps|)])| <= 6
  {
    var names := Names(steps[..Min(6, |steps|)]);
    assert names[0] == StepName(steps[0]);
    if |names| == 1 {
      assert SequenceKey(steps) == names[0];
    } else {
      assert SequenceKey(steps) == names[0] + " > " + Join(" > ", names[1..]);
    }
  }
}
