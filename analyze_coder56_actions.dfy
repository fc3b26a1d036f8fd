/**
 * The notable-actions analysis of attacker runs: the tags a command gets,
 * the commands read from a run's OpenCode logs, the per-run tag counts and
 * sample lists, the choice of the runs worth a closer look, and the command
 * list of the prompt.
 */
module AnalyzeCoder56Actions {
  import opened Wrappers
  import opened Text
  import opened Json
  import opened Counting

  // ---- categorize ----

  /** The tags `categorize` hands out. */
  datatype Tag =
    | ReconNmap | WebProbe | WebEnum | BruteforceTool | SshAttempt | Install
    | DbActions | Firewall | Destructive | FileRead | Other

  /** The tests of `categorize`, in the order it applies them. */
  const RULES: seq<Tag> :=
    [ReconNmap, WebProbe, WebEnum, BruteforceTool, SshAttempt, Install, DbActions, Firewall, Destructive, FileRead]

  /** A tag's place in the order of the tests; "other" comes last. */
  function TagIndex(t: Tag): (i: nat)
    ensures i <= 10 && (i < 10 <==> t != Other)
  {
    match t
    case ReconNmap => 0
    case WebProbe => 1
    case WebEnum => 2
    case BruteforceTool => 3
    case SshAttempt => 4
    case Install => 5
    case DbActions => 6
    case Firewall => 7
    case Destructive => 8
    case FileRead => 9
    case Other => 10
  }

  /** `RULES` lists every tag but "other" once, each at its own index. */
  lemma RulesIndex()
    ensures |RULES| == 10
    ensures forall k | 0 <= k < |RULES| :: TagIndex(RULES[k]) == k
    ensures forall t | t != Other :: RULES[TagIndex(t)] == t
  {
  }

  /** The two kinds of test: a word anywhere in the command, or a word it starts with. */
  datatype Test = AnyOf(words: seq<string>) | StartsWithAnyOf(words: seq<string>) | Never

  /** The test that adds each tag. */
  function TestOf(t: Tag): Test {
    match t
    case ReconNmap => AnyOf(["nmap"])
    case WebProbe => StartsWithAnyOf(["curl ", "wget "])
    case WebEnum => AnyOf(["gobuster", "ffuf", "dirb"])
    case BruteforceTool => AnyOf(["hydra", "medusa", "patator", "ncrack"])
    case SshAttempt => AnyOf(["ssh ", "sshpass"])
    case Install => AnyOf(["apt-get", "apt install", "yum ", "apk ", "pip install"])
    case DbActions => AnyOf(["psql", "postgres", "pg_dump"])
    case Firewall => AnyOf(["iptables"])
    case Destructive => AnyOf(["rm ", "shred ", "dd "])
    case FileRead => AnyOf(["cat ", "grep ", "find ", "ls "])
    case Other => Never
  }

  predicate Passes(test: Test, c: string) {
    match test
    case AnyOf(ws) => exists i | 0 <= i < |ws| :: Contains(c, ws[i])
    case StartsWithAnyOf(ws) => exists i | 0 <= i < |ws| :: StartsWith(c, ws[i])
    case Never => false
  }

  /** The test that adds tag `t`, on the lower-cased command `c`. */
  predicate Rule(t: Tag, c: string) {
    Passes(TestOf(t), c)
  }

  /** The outcome of each test on `c`, in test order. */
  function Verdicts(c: string): (v: seq<bool>)
    ensures |v| == |RULES|
    ensures forall k | 0 <= k < |RULES| :: v[k] == Rule(RULES[k], c)
  {
    seq(|RULES|, k requires 0 <= k < |RULES| => Rule(RULES[k], c))
  }

  /** The tags of the passed tests from the `k`-th on, in test order. */
  function MatchedFrom(v: seq<bool>, k: nat): seq<Tag>
    requires |v| == |RULES| && k <= |RULES|
    decreases |RULES| - k
  {
    if k == |RULES| then []
    else (if v[k] then [RULES[k]] else []) + MatchedFrom(v, k + 1)
  }

  /** `categorize`: every test is applied in turn; "other" only when none passed. */
  function Categorize(cmd: string): (tags: seq<Tag>)
    ensures tags != []
  {
    var m := MatchedFrom(Verdicts(Lower(cmd)), 0);
    if m == [] then [Other] else m
  }

  /** The tags in increasing test order, so none repeats. */
  predicate Ordered(tags: seq<Tag>) {
    forall i, j | 0 <= i < j < |tags| :: TagIndex(tags[i]) < TagIndex(tags[j])
  }

  lemma MatchedFromMeans(v: seq<bool>, k: nat)
    requires |v| == |RULES| && k <= |RULES|
    ensures forall t :: t in MatchedFrom(v, k) <==> t != Other && k <= TagIndex(t) && v[TagIndex(t)]
    ensures forall t | t in MatchedFrom(v, k) :: k <= TagIndex(t)
    ensures Ordered(MatchedFrom(v, k))
  {
    MatchedFromMembers(v, k);
    MatchedFromOrdered(v, k);
  }

  /** The tag a passing test at position `k` contributes. */
  lemma HeadTag(v: seq<bool>, k: nat, t: Tag)
    requires |v| == |RULES| && k < |RULES|
    ensures t in (if v[k] then [RULES[k]] else []) <==> t != Other && TagIndex(t) == k && v[k]
  {
    RulesIndex();
  }

  lemma {:induction false} MatchedFromMembers(v: seq<bool>, k: nat)
    requires |v| == |RULES| && k <= |RULES|
    ensures forall t :: t in MatchedFrom(v, k) <==> t != Other && k <= TagIndex(t) && v[TagIndex(t)]
    decreases |RULES| - k
  {
    if k < |RULES| {
      MatchedFromMembers(v, k + 1);
      forall t
        ensures t in MatchedFrom(v, k) <==> t != Other && k <= TagIndex(t) && v[TagIndex(t)]
      {
        HeadTag(v, k, t);
      }
    }
  }

  lemma {:induction false} MatchedFromBound(v: seq<bool>, k: nat)
    requires |v| == |RULES| && k <= |RULES|
    ensures forall t | t in MatchedFrom(v, k) :: k <= TagIndex(t)
    decreases |RULES| - k
  {
    if k < |RULES| {
      RulesIndex();
      MatchedFromBound(v, k + 1);
    }
  }

  lemma {:induction false} MatchedFromOrdered(v: seq<bool>, k: nat)
    requires |v| == |RULES| && k <= |RULES|
    ensures Ordered(MatchedFrom(v, k))
    decreases |RULES| - k
  {
    if k < |RULES| {
      MatchedFromOrdered(v, k + 1);
      MatchedFromBound(v, k + 1);
      OrderedStep(v, k);
    }
  }

  /** One step of the induction: a passing test puts its tag in front of the later ones. */
  lemma OrderedStep(v: seq<bool>, k: nat)
    requires |v| == |RULES| && k < |RULES|
    requires Ordered(MatchedFrom(v, k + 1))
    requires forall t | t in MatchedFrom(v, k + 1) :: k + 1 <= TagIndex(t)
    ensures Ordered(MatchedFrom(v, k))
  {
    var rest := MatchedFrom(v, k + 1);
    if v[k] {
      RulesIndex();
      OrderedCons(RULES[k], rest);
      assert MatchedFrom(v, k) == [RULES[k]] + rest;
    } else {
      assert MatchedFrom(v, k) == rest;
    }
  }

  lemma OrderedCons(x: Tag, rest: seq<Tag>)
    requires Ordered(rest) && forall t | t in rest :: TagIndex(x) < TagIndex(t)
    ensures Ordered([x] + rest)
  {
    var m := [x] + rest;
    forall i, j | 0 <= i < j < |m|
      ensures TagIndex(m[i]) < TagIndex(m[j])
    {
      assert m[j] == rest[j - 1] && m[j] in rest;
      if i > 0 {
        assert m[i] == rest[i - 1];
      }
    }
  }

  /** A tag other than "other" is given exactly when its test passes on the lower-cased command. */
  lemma CategorizeTag(cmd: string, t: Tag)
    requires t != Other
    ensures t in Categorize(cmd) <==> Rule(t, Lower(cmd))
  {
    var v := Verdicts(Lower(cmd));
    MatchedFromMeans(v, 0);
    RulesIndex();
    assert v[TagIndex(t)] == Rule(RULES[TagIndex(t)], Lower(cmd));
  }

  /** "other" is given exactly when no test passes, and then it is the only tag. */
  lemma CategorizeOther(cmd: string)
    ensures Other in Categorize(cmd) <==> forall i | 0 <= i < |RULES| :: !Rule(RULES[i], Lower(cmd))
    ensures Other in Categorize(cmd) ==> Categorize(cmd) == [Other]
  {
    var v := Verdicts(Lower(cmd));
    MatchedNone(v);
  }

  lemma MatchedNone(v: seq<bool>)
    requires |v| == |RULES|
    ensures MatchedFrom(v, 0) == [] <==> forall i | 0 <= i < |RULES| :: !v[i]
    ensures Other !in MatchedFrom(v, 0)
  {
    MatchedNoOther(v, 0);
    if forall i | 0 <= i < |RULES| :: !v[i] {
      MatchedEmpty(v, 0);
    } else {
      var i :| 0 <= i < |RULES| && v[i];
      MatchedSome(v, 0, i);
    }
  }

  lemma {:induction false} MatchedNoOther(v: seq<bool>, k: nat)
    requires |v| == |RULES| && k <= |RULES|
    ensures Other !in MatchedFrom(v, k)
    decreases |RULES| - k
  {
    if k < |RULES| {
      RulesIndex();
      MatchedNoOther(v, k + 1);
    }
  }

  lemma {:induction false} MatchedEmpty(v: seq<bool>, k: nat)
    requires |v| == |RULES| && k <= |RULES|
    requires forall i | k <= i < |RULES| :: !v[i]
    ensures MatchedFrom(v, k) == []
    decreases |RULES| - k
  {
    if k < |RULES| {
      MatchedEmpty(v, k + 1);
    }
  }

  lemma {:induction false} MatchedSome(v: seq<bool>, k: nat, i: nat)
    requires |v| == |RULES| && k <= i < |RULES| && v[i]
    ensures MatchedFrom(v, k) != []
    decreases |RULES| - k
  {
    if k < i {
      MatchedSome(v, k + 1, i);
    }
  }

  /** The tags come in test order, without repeats. */
  lemma CategorizeOrdered(cmd: string)
    ensures Ordered(Categorize(cmd))
  {
    MatchedFromMeans(Verdicts(Lower(cmd)), 0);
  }

  /** An ordered tag list holds each tag at most once. */
  lemma {:induction false} OrderedCount(tags: seq<Tag>, t: Tag)
    requires Ordered(tags)
    ensures multiset(tags)[t] == if t in tags then 1 else 0
    decreases |tags|
  {
    if tags != [] {
      var rest := tags[1..];
      assert tags == [tags[0]] + rest;
      assert Ordered(rest) by {
        forall i, j | 0 <= i < j < |rest|
          ensures TagIndex(rest[i]) < TagIndex(rest[j])
        {
          assert rest[i] == tags[i + 1] && rest[j] == tags[j + 1];
        }
      }
      OrderedCount(rest, t);
      if tags[0] == t {
        forall j | 0 <= j < |rest|
          ensures rest[j] != t
        {
          assert rest[j] == tags[j + 1];
        }
      }
    }
  }

  // ---- load_commands ----

  /** One command read from an OpenCode log. */
  datatype LoadedCommand = LoadedCommand(command: string, description: string, output: string, exitCode: Value)

  const CUT := "...[truncated]"

  /** An output longer than 500 characters is cut to 500 and marked. */
  function CutOutput(o: string): (r: string)
    ensures |o| <= 500 ==> r == o
    ensures |o| > 500 ==> |r| == 500 + |CUT| && r[..500] == o[..500] && EndsWith(r, CUT)
  {
    if |o| > 500 then
      var r := o[..500] + CUT;
      assert r[..500] == o[..500];
      r
    else o
  }

  /** The log files of a run directory. */
  predicate IsStdoutFile(name: string) {
    name == "opencode_stdout.jsonl" || (StartsWith(name, "opencode_stdout_") && EndsWith(name, ".jsonl"))
  }

  /** What one log line contributes: a `tool_use` event with a non-empty command. */
  function LineCommand(line: string, parse: Parser): Option<LoadedCommand> {
    var t := Strip(line);
    if t == [] then None
    else match parse(t)
      case None => None
      case Some(event) =>
        if GetOr(event, "type", Null) != Str("tool_use") then None
        else
          var state := Sub(Sub(event, "part"), "state");
          var input := Sub(state, "input");
          var cmd := StrOr(input, "command", "");
          if cmd == [] then None
          else Some(LoadedCommand(cmd, StrOr(input, "description", ""), CutOutput(StrOr(state, "output", "")),
                                  GetOr(Sub(state, "metadata"), "exit", Null)))
  }

  /** The commands of a log file, in line order. */
  function FileCommands(lines: seq<string>, parse: Parser): seq<LoadedCommand>
    decreases |lines|
  {
    if lines == [] then []
    else
      var init := FileCommands(lines[..|lines| - 1], parse);
      match LineCommand(lines[|lines| - 1], parse)
      case Some(c) => init + [c]
      case None => init
  }

  /** The log files among a directory listing, in listing order. */
  function StdoutFiles(files: seq<(string, seq<string>)>): (r: seq<(string, seq<string>)>)
    ensures forall f | f in r :: IsStdoutFile(f.0) && f in files
    decreases |files|
  {
    if files == [] then []
    else (if IsStdoutFile(files[0].0) then [files[0]] else []) + StdoutFiles(files[1..])
  }

  /** The commands of the log files, file after file. */
  function FilesCommands(files: seq<(string, seq<string>)>, parse: Parser): seq<LoadedCommand>
    decreases |files|
  {
    if files == [] then [] else FilesCommands(files[..|files| - 1], parse) + FileCommands(files[|files| - 1].1, parse)
  }

  /** What `load_commands` reads from a directory listing; `None` when the run directory is missing. */
  function DirCommands(dir: Option<seq<(string, seq<string>)>>, parse: Parser): seq<LoadedCommand> {
    match dir
    case None => []
    case Some(files) => FilesCommands(StdoutFiles(files), parse)
  }

  /**
   * `load_commands`: `dir` is the run directory's listing, each file with its
   * lines (in the order `os.listdir` gives them), or `None` when it is not a directory.
   */
  method LoadCommands(dir: Option<seq<(string, seq<string>)>>, parse: Parser) returns (commands: seq<LoadedCommand>)
    ensures commands == DirCommands(dir, parse)
  {
    commands := [];
    if dir.None? {
      return;
    }
    var stdoutFiles := StdoutFiles(dir.value);
    var k := 0;
    while k < |stdoutFiles|
      invariant 0 <= k <= |stdoutFiles|
      invariant commands == FilesCommands(stdoutFiles[..k], parse)
    {
      assert stdoutFiles[..k + 1][..k] == stdoutFiles[..k];
      commands := ReadLogFile(commands, stdoutFiles[k].1, parse);
      k := k + 1;
    }
    assert stdoutFiles[..k] == stdoutFiles;
  }

  /** The line loop over one log file. */
  method ReadLogFile(commands: seq<LoadedCommand>, lines: seq<string>, parse: Parser) returns (cs: seq<LoadedCommand>)
    ensures cs == commands + FileCommands(lines, parse)
  {
    cs := commands;
    var i := 0;
    while i < |lines|
      invariant 0 <= i <= |lines|
      invariant cs == commands + FileCommands(lines[..i], parse)
    {
      assert lines[..i + 1][..i] == lines[..i];
      var c := LineCommand(lines[i], parse);
      if c.Some? {
        cs := cs + [c.value];
      }
      i := i + 1;
    }
    assert lines[..i] == lines;
  }

  /** Every loaded command has a non-empty command text and an output of at most 514 characters. */
  lemma {:induction false} FileCommandsShape(lines: seq<string>, parse: Parser)
    ensures forall c | c in FileCommands(lines, parse) :: c.command != [] && |c.output| <= 500 + |CUT|
    decreases |lines|
  {
    if lines != [] {
      FileCommandsShape(lines[..|lines| - 1], parse);
    }
  }

  /** Only the log files are read: the other files of the directory contribute nothing. */
  lemma OtherFilesIgnored(files: seq<(string, seq<string>)>, f: (string, seq<string>), parse: Parser)
    requires !IsStdoutFile(f.0)
    ensures DirCommands(Some(files + [f]), parse) == DirCommands(Some(files), parse)
  {
    StdoutFilesAppend(files, [f]);
    assert StdoutFiles([f]) == [];
    assert StdoutFiles(files) + [] == StdoutFiles(files);
  }

  lemma {:induction false} StdoutFilesAppend(a: seq<(string, seq<string>)>, b: seq<(string, seq<string>)>)
    ensures StdoutFiles(a + b) == StdoutFiles(a) + StdoutFiles(b)
    decreases |a|
  {
    if a != [] {
      assert (a + b)[0] == a[0];
      assert (a + b)[1..] == a[1..] + b;
      StdoutFilesAppend(a[1..], b);
    } else {
      assert a + b == b;
    }
  }

  // ---- the tag loop of collect_runs ----

  /** The Counter and the sample lists of one run. */
  datatype TagState = TagState(counts: map<Tag, nat>, samples: map<Tag, seq<LoadedCommand>>)

  function SampleAt(m: map<Tag, seq<LoadedCommand>>, t: Tag): seq<LoadedCommand> {
    if t in m then m[t] else []
  }

  /** `if len(tag_cmds[tag]) < 5: tag_cmds[tag].append(cmd)`. */
  function AddSample(m: map<Tag, seq<LoadedCommand>>, t: Tag, c: LoadedCommand): map<Tag, seq<LoadedCommand>> {
    var cur := SampleAt(m, t);
    if |cur| < 5 then m[t := cur + [c]] else m
  }

  /** The inner loop: each tag of command `c` counted once and offered to its samples. */
  function AddTags(s: TagState, tags: seq<Tag>, c: LoadedCommand): TagState
    decreases |tags|
  {
    if tags == [] then s
    else
      var s1 := AddTags(s, tags[..|tags| - 1], c);
      var t := tags[|tags| - 1];
      TagState(Bump(s1.counts, t), AddSample(s1.samples, t, c))
  }

  lemma AddTagsSnoc(s: TagState, tags: seq<Tag>, t: Tag, c: LoadedCommand)
    ensures var s1 := AddTags(s, tags, c);
      AddTags(s, tags + [t], c) == TagState(Bump(s1.counts, t), AddSample(s1.samples, t, c))
  {
    assert (tags + [t])[..|tags|] == tags;
  }

  /** The tag loop over the commands of a run. */
  function TagFold(cmds: seq<LoadedCommand>): TagState
    decreases |cmds|
  {
    if cmds == [] then TagState(map[], map[])
    else
      var last := cmds[|cmds| - 1];
      AddTags(TagFold(cmds[..|cmds| - 1]), Categorize(last.command), last)
  }

  method TagCommands(commands: seq<LoadedCommand>) returns (tagCounts: map<Tag, nat>, tagCmds: map<Tag, seq<LoadedCommand>>)
    ensures TagState(tagCounts, tagCmds) == TagFold(commands)
  {
    tagCounts, tagCmds := map[], map[];
    var i := 0;
    while i < |commands|
      invariant 0 <= i <= |commands|
      invariant TagState(tagCounts, tagCmds) == TagFold(commands[..i])
    {
      TagFoldPrefix(commands, i);
      var tags := Categorize(commands[i].command);
      tagCounts, tagCmds := TagCommand(tagCounts, tagCmds, tags, commands[i]);
      i := i + 1;
    }
    assert commands[..i] == commands;
  }

  lemma TagFoldPrefix(cmds: seq<LoadedCommand>, i: nat)
    requires i < |cmds|
    ensures TagFold(cmds[..i + 1]) == AddTags(TagFold(cmds[..i]), Categorize(cmds[i].command), cmds[i])
  {
    assert cmds[..i + 1][..i] == cmds[..i];
  }

  /** `for tag in categorize(cmd["command"])`, given the tags. */
  method TagCommand(tagCounts: map<Tag, nat>, tagCmds: map<Tag, seq<LoadedCommand>>, tags: seq<Tag>, cmd: LoadedCommand)
    returns (counts: map<Tag, nat>, samples: map<Tag, seq<LoadedCommand>>)
    ensures TagState(counts, samples) == AddTags(TagState(tagCounts, tagCmds), tags, cmd)
  {
    counts, samples := tagCounts, tagCmds;
    var j := 0;
    while j < |tags|
      invariant 0 <= j <= |tags|
      invariant TagState(counts, samples) == AddTags(TagState(tagCounts, tagCmds), tags[..j], cmd)
    {
      var tag := tags[j];
      AddTagsSnoc(TagState(tagCounts, tagCmds), tags[..j], tag, cmd);
      assert tags[..j + 1] == tags[..j] + [tag];
      counts := Bump(counts, tag);
      var cur := if tag in samples then samples[tag] else [];
      if |cur| < 5 {
        samples := samples[tag := cur + [cmd]];
      }
      j := j + 1;
    }
    assert tags[..j] == tags;
  }

  // ---- properties of the tag loop ----

  /** All tags of all commands, command after command. */
  function AllTags(cmds: seq<LoadedCommand>): seq<Tag>
    decreases |cmds|
  {
    if cmds == [] then [] else AllTags(cmds[..|cmds| - 1]) + Categorize(cmds[|cmds| - 1].command)
  }

  /** The commands that get tag `t`, in order. */
  function WithTag(cmds: seq<LoadedCommand>, t: Tag): seq<LoadedCommand>
    decreases |cmds|
  {
    if cmds == [] then []
    else
      var last := cmds[|cmds| - 1];
      WithTag(cmds[..|cmds| - 1], t) + (if t in Categorize(last.command) then [last] else [])
  }

  lemma {:induction false} AddTagsCounts(s: TagState, tags: seq<Tag>, c: LoadedCommand, ks: seq<Tag>)
    requires s.counts == Tally(ks)
    ensures AddTags(s, tags, c).counts == Tally(ks + tags)
    decreases |tags|
  {
    if tags == [] {
      assert ks + tags == ks;
    } else {
      var init, t := tags[..|tags| - 1], tags[|tags| - 1];
      AddTagsCounts(s, init, c, ks);
      TallySnoc(ks + init, t);
      assert ks + init + [t] == ks + tags;
    }
  }

  /** The Counter counts all tags of all commands. */
  lemma {:induction false} TagFoldCounts(cmds: seq<LoadedCommand>)
    ensures TagFold(cmds).counts == Tally(AllTags(cmds))
    decreases |cmds|
  {
    if cmds != [] {
      var init := cmds[..|cmds| - 1];
      TagFoldCounts(init);
      AddTagsCounts(TagFold(init), Categorize(cmds[|cmds| - 1].command), cmds[|cmds| - 1], AllTags(init));
    }
  }

  /** Each command adds one to each of its tags: a tag's count is the number of commands with that tag. */
  lemma {:induction false} AllTagsCount(cmds: seq<LoadedCommand>, t: Tag)
    ensures multiset(AllTags(cmds))[t] == |WithTag(cmds, t)|
    decreases |cmds|
  {
    if cmds != [] {
      var init, last := cmds[..|cmds| - 1], cmds[|cmds| - 1];
      AllTagsCount(init, t);
      CategorizeOrdered(last.command);
      OrderedCount(Categorize(last.command), t);
      assert multiset(AllTags(cmds)) == multiset(AllTags(init)) + multiset(Categorize(last.command));
    }
  }

  /** `tag_counts[t]` is the number of commands tagged `t`, and only tags that were given are keys. */
  lemma TagCounts(cmds: seq<LoadedCommand>, t: Tag)
    ensures var counts := TagFold(cmds).counts;
      (if t in counts then counts[t] else 0) == |WithTag(cmds, t)|
  {
    TagFoldCounts(cmds);
    CountOrZero(AllTags(cmds), t);
    AllTagsCount(cmds, t);
  }

  /** The first five of a list. */
  function First5(xs: seq<LoadedCommand>): seq<LoadedCommand> {
    xs[..Min(5, |xs|)]
  }

  /** The inner loop offers `c` once to the samples of each of its tags and leaves every other tag alone. */
  /** The inner loop gives a sample list to each tag of the command and to no other new tag. */
  lemma {:induction false} AddTagsKeys(s: TagState, tags: seq<Tag>, c: LoadedCommand, t: Tag)
    ensures t in AddTags(s, tags, c).samples <==> t in s.samples || t in tags
    decreases |tags|
  {
    if tags != [] {
      var init, last := tags[..|tags| - 1], tags[|tags| - 1];
      AddTagsKeys(s, init, c, t);
      assert t in tags <==> t in init || t == last;
    }
  }

  /** The inner loop offers `c` once to the samples of each of its tags and leaves every other tag alone. */
  lemma {:induction false} AddTagsSamples(s: TagState, tags: seq<Tag>, c: LoadedCommand, t: Tag)
    requires Ordered(tags)
    ensures SampleAt(AddTags(s, tags, c).samples, t) ==
      if t in tags then AddSample(s.samples, t, c)[t] else SampleAt(s.samples, t)
    decreases |tags|
  {
    if tags != [] {
      var init, last := tags[..|tags| - 1], tags[|tags| - 1];
      OrderedInit(tags);
      AddTagsSamples(s, init, c, t);
      assert t in tags <==> t in init || t == last;
    }
  }

  lemma First5Snoc(w: seq<LoadedCommand>, c: LoadedCommand)
    ensures First5(w + [c]) == if |w| < 5 then w + [c] else First5(w)
  {
    if |w| < 5 {
      assert First5(w + [c]) == w + [c];
    } else {
      assert (w + [c])[..5] == w[..5];
    }
  }

  /** One command's inner loop keeps the samples of `t` the first five commands tagged `t`. */
  lemma SamplesStep(s0: TagState, tags: seq<Tag>, c: LoadedCommand, t: Tag, w: seq<LoadedCommand>)
    requires Ordered(tags)
    requires (t in s0.samples <==> w != []) && SampleAt(s0.samples, t) == First5(w)
    ensures var m := AddTags(s0, tags, c).samples;
      var w1 := w + (if t in tags then [c] else []);
      (t in m <==> w1 != []) && SampleAt(m, t) == First5(w1)
  {
    AddTagsKeys(s0, tags, c, t);
    AddTagsSamples(s0, tags, c, t);
    if t in tags {
      First5Snoc(w, c);
    } else {
      assert w + [] == w;
    }
  }

  /** Dropping the last tag of an ordered list keeps it ordered, and the last tag occurs only once. */
  lemma OrderedInit(tags: seq<Tag>)
    requires Ordered(tags) && tags != []
    ensures Ordered(tags[..|tags| - 1]) && tags[|tags| - 1] !in tags[..|tags| - 1]
  {
    var init := tags[..|tags| - 1];
    forall i | 0 <= i < |init|
      ensures init[i] != tags[|tags| - 1]
    {
      assert init[i] == tags[i];
    }
  }

  /** `tag_cmds[t]` holds the first five commands tagged `t`, in order. */
  lemma {:induction false} TagFoldSamples(cmds: seq<LoadedCommand>, t: Tag)
    ensures var m := TagFold(cmds).samples;
      (t in m <==> WithTag(cmds, t) != []) && SampleAt(m, t) == First5(WithTag(cmds, t))
    decreases |cmds|
  {
    if cmds != [] {
      var init, last := cmds[..|cmds| - 1], cmds[|cmds| - 1];
      TagFoldSamples(init, t);
      CategorizeOrdered(last.command);
      SamplesStep(TagFold(init), Categorize(last.command), last, t, WithTag(init, t));
    }
  }

  // ---- collect_runs ----

  /** A CSV row. */
  type Row = map<string, string>

  /**
   * The listing of `outputs_root/<run_id>/coder56` by run id: the files with
   * their lines, or `None` when that directory does not exist.
   */
  type Listing = string -> Option<seq<(string, seq<string>)>>

  /** What `collect_runs` keeps for one run. */
  datatype RunRecord = RunRecord(row: Row, commands: seq<LoadedCommand>, tagCounts: map<Tag, nat>, tagCmds: map<Tag, seq<LoadedCommand>>)

  /** A row's run id; rows with a missing or empty `run_id` are skipped. */
  function RunIdOf(row: Row): Option<string> {
    if "run_id" in row && row["run_id"] != [] then Some(row["run_id"]) else None
  }

  /** The record kept for a row with run id `id`. */
  function RecordOf(row: Row, id: string, dirs: Listing, parse: Parser): RunRecord {
    var cmds := DirCommands(dirs(id), parse);
    var s := TagFold(cmds);
    RunRecord(row, cmds, s.counts, s.samples)
  }

  /** The run map after the rows, in order; a later row with the same id replaces the earlier. */
  function Runs(rows: seq<Row>, dirs: Listing, parse: Parser): map<string, RunRecord>
    decreases |rows|
  {
    if rows == [] then map[]
    else
      var m := Runs(rows[..|rows| - 1], dirs, parse);
      var row := rows[|rows| - 1];
      match RunIdOf(row)
      case None => m
      case Some(id) => m[id := RecordOf(row, id, dirs, parse)]
  }

  /** `collect_runs`. */
  method CollectRuns(rows: seq<Row>, dirs: Listing, parse: Parser) returns (runs: map<string, RunRecord>)
    ensures runs == Runs(rows, dirs, parse)
  {
    runs := map[];
    var i := 0;
    while i < |rows|
      invariant 0 <= i <= |rows|
      invariant runs == Runs(rows[..i], dirs, parse)
    {
      RunsPrefix(rows, i, dirs, parse);
      var row := rows[i];
      var runId := RunIdOf(row);
      if runId.Some? {
        var commands := LoadCommands(dirs(runId.value), parse);
        var tagCounts, tagCmds := TagCommands(commands);
        runs := runs[runId.value := RunRecord(row, commands, tagCounts, tagCmds)];
      }
      i := i + 1;
    }
    assert rows[..i] == rows;
  }

  lemma RunsPrefix(rows: seq<Row>, i: nat, dirs: Listing, parse: Parser)
    requires i < |rows|
    ensures Runs(rows[..i + 1], dirs, parse) ==
      match RunIdOf(rows[i])
      case None => Runs(rows[..i], dirs, parse)
      case Some(id) => Runs(rows[..i], dirs, parse)[id := RecordOf(rows[i], id, dirs, parse)]
  {
    assert rows[..i + 1][..i] == rows[..i];
  }

  /** A run is kept exactly when some row carries its id. */
  lemma {:induction false} RunsKeys(rows: seq<Row>, dirs: Listing, parse: Parser, id: string)
    ensures id in Runs(rows, dirs, parse) <==> exists i | 0 <= i < |rows| :: RunIdOf(rows[i]) == Some(id)
    decreases |rows|
  {
    if rows != [] {
      var init := rows[..|rows| - 1];
      RunsKeys(init, dirs, parse, id);
      if exists i | 0 <= i < |init| :: RunIdOf(init[i]) == Some(id) {
        var i :| 0 <= i < |init| && RunIdOf(init[i]) == Some(id);
        assert rows[i] == init[i];
      }
      if exists i | 0 <= i < |rows| :: RunIdOf(rows[i]) == Some(id) {
        var i :| 0 <= i < |rows| && RunIdOf(rows[i]) == Some(id);
        if i < |init| {
          assert init[i] == rows[i];
        }
      }
    }
  }

  /** The record of a run comes from the last row with its id. */
  lemma {:induction false} RunsLastRowWins(rows: seq<Row>, dirs: Listing, parse: Parser, i: nat)
    requires i < |rows| && RunIdOf(rows[i]).Some?
    requires forall j | i < j < |rows| :: RunIdOf(rows[j]) != RunIdOf(rows[i])
    ensures var id := RunIdOf(rows[i]).value;
      id in Runs(rows, dirs, parse) && Runs(rows, dirs, parse)[id] == RecordOf(rows[i], id, dirs, parse)
    decreases |rows|
  {
    if i < |rows| - 1 {
      var init := rows[..|rows| - 1];
      assert init[i] == rows[i];
      forall j | i < j < |init|
        ensures RunIdOf(init[j]) != RunIdOf(init[i])
      {
        assert init[j] == rows[j];
      }
      RunsLastRowWins(init, dirs, parse, i);
    }
  }

  // ---- pick_notable_runs ----

  /** The tags whose counts make up a run's score. */
  const SCORED: seq<Tag> := [SshAttempt, Install, Destructive, DbActions, Firewall]

  /** `tag_counts.get(t, 0)`. */
  function CountOf(counts: map<Tag, nat>, t: Tag): nat {
    if t in counts then counts[t] else 0
  }

  /** The sum of the counts of the scored tags, the first `k` of them. */
  function ScoreOver(counts: map<Tag, nat>, k: nat): nat
    requires k <= |SCORED|
  {
    if k == 0 then 0 else ScoreOver(counts, k - 1) + CountOf(counts, SCORED[k - 1])
  }

  function Score(counts: map<Tag, nat>): nat {
    ScoreOver(counts, |SCORED|)
  }

  /** The score loop of `pick_notable_runs`. */
  method ScoreOf(counts: map<Tag, nat>) returns (score: nat)
    ensures score == Score(counts)
  {
    score := 0;
    var k := 0;
    while k < |SCORED|
      invariant 0 <= k <= |SCORED|
      invariant score == ScoreOver(counts, k)
    {
      score := score + CountOf(counts, SCORED[k]);
      k := k + 1;
    }
  }

  lemma ScoreSum(counts: map<Tag, nat>)
    ensures Score(counts) == CountOf(counts, SshAttempt) + CountOf(counts, Install) + CountOf(counts, Destructive)
      + CountOf(counts, DbActions) + CountOf(counts, Firewall)
  {
    assert ScoreOver(counts, 1) == CountOf(counts, SshAttempt);
    assert ScoreOver(counts, 2) == ScoreOver(counts, 1) + CountOf(counts, Install);
    assert ScoreOver(counts, 3) == ScoreOver(counts, 2) + CountOf(counts, Destructive);
    assert ScoreOver(counts, 4) == ScoreOver(counts, 3) + CountOf(counts, DbActions);
    assert ScoreOver(counts, 5) == ScoreOver(counts, 4) + CountOf(counts, Firewall);
  }

  /** A run's score is the number of its ssh, install, destructive, database and firewall tags. */
  lemma ScoreCounts(cmds: seq<LoadedCommand>)
    ensures Score(TagFold(cmds).counts) ==
      |WithTag(cmds, SshAttempt)| + |WithTag(cmds, Install)| + |WithTag(cmds, Destructive)|
      + |WithTag(cmds, DbActions)| + |WithTag(cmds, Firewall)|
  {
    assert Score(TagFold(cmds).counts) == ScoreOver(TagFold(cmds).counts, 5);
    ScoreSum(TagFold(cmds).counts);
    TagCounts(cmds, SshAttempt);
    TagCounts(cmds, Install);
    TagCounts(cmds, Destructive);
    TagCounts(cmds, DbActions);
    TagCounts(cmds, Firewall);
  }

  /** A candidate: a score and a run id. */
  type Candidate = (nat, string)

  /** `a` comes before `b` in `sort(reverse=True)`: a higher score, or the same score and a greater run id. */
  predicate Before(a: Candidate, b: Candidate) {
    a.0 > b.0 || (a.0 == b.0 && StrLt(b.1, a.1))
  }

  predicate Sorted(cs: seq<Candidate>) {
    forall i, j | 0 <= i < j < |cs| :: Before(cs[i], cs[j])
  }

  lemma BeforeTrans(a: Candidate, b: Candidate, c: Candidate)
    requires Before(a, b) && Before(b, c)
    ensures Before(a, c)
  {
    if a.0 == b.0 && b.0 == c.0 {
      StrLtTrans(c.1, b.1, a.1);
    }
  }

  lemma BeforeTotal(a: Candidate, b: Candidate)
    requires a.1 != b.1
    ensures Before(a, b) || Before(b, a)
  {
    StrLtTotal(a.1, b.1);
  }

  lemma BeforeIrreflexive(a: Candidate)
    ensures !Before(a, a)
  {
    StrLtIrreflexive(a.1);
  }

  /** `p` put in its place in the sorted list `cs`. */
  function Insert(cs: seq<Candidate>, p: Candidate): seq<Candidate>
    decreases |cs|
  {
    if cs == [] then [p]
    else if Before(p, cs[0]) then [p] + cs
    else [cs[0]] + Insert(cs[1..], p)
  }

  lemma {:induction false} InsertElements(cs: seq<Candidate>, p: Candidate)
    ensures multiset(Insert(cs, p)) == multiset(cs) + multiset{p}
    ensures |Insert(cs, p)| == |cs| + 1
    ensures forall q :: q in Insert(cs, p) <==> q in cs || q == p
    decreases |cs|
  {
    if cs != [] && !Before(p, cs[0]) {
      InsertElements(cs[1..], p);
      assert cs == [cs[0]] + cs[1..];
    }
  }

  /** Inserting a run not yet listed keeps the list sorted. */
  lemma {:induction false} InsertSorted(cs: seq<Candidate>, p: Candidate)
    requires Sorted(cs)
    requires forall q | q in cs :: q.1 != p.1
    ensures Sorted(Insert(cs, p))
    decreases |cs|
  {
    if cs == [] {
    } else if Before(p, cs[0]) {
      var r := [p] + cs;
      forall i, j | 0 <= i < j < |r|
        ensures Before(r[i], r[j])
      {
        if i == 0 && j > 1 {
          BeforeTrans(p, cs[0], cs[j - 1]);
        }
      }
    } else {
      var rest := cs[1..];
      assert Sorted(rest) by {
        forall i, j | 0 <= i < j < |rest|
          ensures Before(rest[i], rest[j])
        {
          assert rest[i] == cs[i + 1] && rest[j] == cs[j + 1];
        }
      }
      forall q | q in rest
        ensures q.1 != p.1
      {
        assert q in cs;
      }
      InsertSorted(rest, p);
      InsertElements(rest, p);
      BeforeTotal(p, cs[0]);
      InsertHead(cs[0], Insert(rest, p), rest, p);
    }
  }

  lemma InsertHead(h: Candidate, ins: seq<Candidate>, rest: seq<Candidate>, p: Candidate)
    requires Sorted(ins) && Before(h, p)
    requires forall q :: q in ins <==> q in rest || q == p
    requires forall q | q in rest :: Before(h, q)
    ensures Sorted([h] + ins)
  {
    var r := [h] + ins;
    forall i, j | 0 <= i < j < |r|
      ensures Before(r[i], r[j])
    {
      if i == 0 {
        assert r[j] == ins[j - 1];
        assert r[j] in ins;
      } else {
        assert r[i] == ins[i - 1] && r[j] == ins[j - 1];
      }
    }
  }

  lemma SortedHead(cs: seq<Candidate>)
    requires Sorted(cs) && cs != []
    ensures forall q | q in cs[1..] :: Before(cs[0], q)
  {
    forall q | q in cs[1..]
      ensures Before(cs[0], q)
    {
      var k :| 0 <= k < |cs[1..]| && cs[1..][k] == q;
      assert cs[k + 1] == q;
    }
  }

  /** A run's candidate pair. */
  function CandidateOf(runs: map<string, RunRecord>, id: string): Candidate
    requires id in runs
  {
    (Score(runs[id].tagCounts), id)
  }

  /** The runs with a positive score. */
  function Scored(runs: map<string, RunRecord>): set<string> {
    set id | id in runs && Score(runs[id].tagCounts) > 0
  }

  /** The run ids of the candidates. */
  function Ids(cs: seq<Candidate>): (r: seq<string>)
    ensures |r| == |cs| && forall i | 0 <= i < |cs| :: r[i] == cs[i].1
  {
    seq(|cs|, i requires 0 <= i < |cs| => cs[i].1)
  }

  /**
   * The loop invariant of `pick_notable_runs`: `candidates` holds, sorted,
   * the pairs of the runs with a positive score among those already visited
   * (the runs not in `rest`), and `seen` is the set of their ids.
   */
  ghost predicate Collected(runs: map<string, RunRecord>, candidates: seq<Candidate>, seen: set<string>, rest: set<string>) {
    && rest <= runs.Keys
    && (forall id :: id in seen <==> id in Scored(runs) && id !in rest)
    && Sorted(candidates) && |candidates| == |seen|
    && (forall q | q in candidates :: q.1 in seen && q.1 in runs && q == CandidateOf(runs, q.1))
    && (forall id | id in seen :: CandidateOf(runs, id) in candidates)
  }

  /** Visiting one more run keeps the invariant. */
  lemma CollectedStep(runs: map<string, RunRecord>, candidates: seq<Candidate>, seen: set<string>, rest: set<string>, runId: string)
    requires Collected(runs, candidates, seen, rest) && runId in rest
    ensures var score := Score(runs[runId].tagCounts);
      if score > 0 then Collected(runs, Insert(candidates, (score, runId)), seen + {runId}, rest - {runId})
      else Collected(runs, candidates, seen, rest - {runId})
  {
    var score := Score(runs[runId].tagCounts);
    if score > 0 {
      InsertSorted(candidates, (score, runId));
      InsertElements(candidates, (score, runId));
    }
  }

  /** The first 15 of the sorted candidates are the 15 best runs, in order. */
  lemma TopOfCollected(runs: map<string, RunRecord>, candidates: seq<Candidate>, seen: set<string>)
    requires Collected(runs, candidates, seen, {})
    ensures var notable := Ids(candidates[..Min(15, |candidates|)]);
      && |notable| == Min(15, |Scored(runs)|)
      && (forall i | 0 <= i < |notable| :: notable[i] in Scored(runs))
      && (forall i, j | 0 <= i < j < |notable| ::
            notable[i] in runs && notable[j] in runs && Before(CandidateOf(runs, notable[i]), CandidateOf(runs, notable[j])))
      && (forall id | id in Scored(runs) && id !in notable :: forall i | 0 <= i < |notable| ::
            notable[i] in runs && Before(CandidateOf(runs, notable[i]), CandidateOf(runs, id)))
  {
    assert seen == Scored(runs);
    TopScored(runs, candidates, seen);
    TopOrdered(runs, candidates, seen);
    TopBeatsRest(runs, candidates, seen);
  }

  lemma TopScored(runs: map<string, RunRecord>, candidates: seq<Candidate>, seen: set<string>)
    requires Collected(runs, candidates, seen, {})
    ensures var notable := Ids(candidates[..Min(15, |candidates|)]);
      forall i | 0 <= i < |notable| :: notable[i] in Scored(runs)
  {
    var top := candidates[..Min(15, |candidates|)];
    var notable := Ids(top);
    forall i | 0 <= i < |notable|
      ensures notable[i] in Scored(runs)
    {
      assert top[i] == candidates[i];
      assert candidates[i] in candidates;
    }
  }

  lemma TopOrdered(runs: map<string, RunRecord>, candidates: seq<Candidate>, seen: set<string>)
    requires Collected(runs, candidates, seen, {})
    ensures var notable := Ids(candidates[..Min(15, |candidates|)]);
      forall i, j | 0 <= i < j < |notable| ::
        notable[i] in runs && notable[j] in runs && Before(CandidateOf(runs, notable[i]), CandidateOf(runs, notable[j]))
  {
    var top := candidates[..Min(15, |candidates|)];
    var notable := Ids(top);
    forall i, j | 0 <= i < j < |notable|
      ensures notable[i] in runs && notable[j] in runs && Before(CandidateOf(runs, notable[i]), CandidateOf(runs, notable[j]))
    {
      assert top[i] == candidates[i] && top[j] == candidates[j];
      assert candidates[i] in candidates && candidates[j] in candidates;
    }
  }

  lemma TopBeatsRest(runs: map<string, RunRecord>, candidates: seq<Candidate>, seen: set<string>)
    requires Collected(runs, candidates, seen, {})
    ensures var notable := Ids(candidates[..Min(15, |candidates|)]);
      forall id | id in Scored(runs) && id !in notable :: forall i | 0 <= i < |notable| ::
        notable[i] in runs && Before(CandidateOf(runs, notable[i]), CandidateOf(runs, id))
  {
    var top := candidates[..Min(15, |candidates|)];
    var notable := Ids(top);
    forall id | id in Scored(runs) && id !in notable
      ensures forall i | 0 <= i < |notable| :: notable[i] in runs && Before(CandidateOf(runs, notable[i]), CandidateOf(runs, id))
    {
      var m :| 0 <= m < |candidates| && candidates[m] == CandidateOf(runs, id);
      forall i | 0 <= i < |notable|
        ensures notable[i] in runs && Before(CandidateOf(runs, notable[i]), CandidateOf(runs, id))
      {
        assert top[i] == candidates[i];
        assert candidates[i] in candidates;
      }
    }
  }

  /**
   * `pick_notable_runs`: the first 15 runs with a positive score by
   * descending (score, run id). The map is walked in an arbitrary order, and
   * each candidate is put in place as it is found; the sorted list is the
   * one `sort(reverse=True)` produces, since no two candidates are equal.
   */
  method PickNotableRuns(runs: map<string, RunRecord>) returns (notable: seq<string>)
    ensures |notable| == Min(15, |Scored(runs)|)
    ensures forall i | 0 <= i < |notable| :: notable[i] in Scored(runs)
    ensures forall i, j | 0 <= i < j < |notable| ::
      notable[i] in runs && notable[j] in runs && Before(CandidateOf(runs, notable[i]), CandidateOf(runs, notable[j]))
    ensures forall id | id in Scored(runs) && id !in notable :: forall i | 0 <= i < |notable| ::
      notable[i] in runs && Before(CandidateOf(runs, notable[i]), CandidateOf(runs, id))
  {
    var candidates: seq<Candidate> := [];
    var rest := runs.Keys;
    ghost var seen: set<string> := {};
    while rest != {}
      invariant Collected(runs, candidates, seen, rest)
      decreases |rest|
    {
      var runId :| runId in rest;
      CollectedStep(runs, candidates, seen, rest, runId);
      var score := ScoreOf(runs[runId].tagCounts);
      if score > 0 {
        candidates := Insert(candidates, (score, runId));
        seen := seen + {runId};
      }
      rest := rest - {runId};
    }
    TopOfCollected(runs, candidates, seen);
    notable := Ids(candidates[..Min(15, |candidates|)]);
  }

  // ---- format_commands_for_llm ----

  /** The status after a command's number: a tick for exit code 0, a cross with the code otherwise. */
  function Mark(exitCode: Value): string {
    if IsZero(exitCode) then "\U{2713}" else "\U{2717} (" + Render(exitCode) + ")"
  }

  /** The heading and command lines of command number `n`. */
  function Header(n: nat, c: LoadedCommand): seq<string> {
    ["\n### Command " + NatToString(n) + " " + Mark(c.exitCode), "```bash", c.command, "```"]
  }

  /** The output lines, present only when the output is not empty. */
  function OutputLines(c: LoadedCommand): seq<string> {
    if c.output != [] then ["Output:", "```", c.output, "```"] else []
  }

  function Block(n: nat, c: LoadedCommand): seq<string> {
    Header(n, c) + OutputLines(c)
  }

  /** The lines of the commands, numbered from 1. */
  function PromptLines(cs: seq<LoadedCommand>): seq<string>
    decreases |cs|
  {
    if cs == [] then [] else PromptLines(cs[..|cs| - 1]) + Block(|cs|, cs[|cs| - 1])
  }

  /** `format_commands_for_llm`. */
  method FormatCommandsForLlm(commands: seq<LoadedCommand>) returns (text: string)
    ensures text == Join("\n", PromptLines(commands))
  {
    var lines := [];
    var i := 0;
    while i < |commands|
      invariant 0 <= i <= |commands|
      invariant lines == PromptLines(commands[..i])
    {
      PromptLinesStep(commands, i);
      lines := AppendBlock(lines, i + 1, commands[i]);
      i := i + 1;
    }
    assert commands[..i] == commands;
    text := Join("\n", lines);
  }

  method AppendBlock(lines: seq<string>, n: nat, cmd: LoadedCommand) returns (ls: seq<string>)
    ensures ls == lines + Block(n, cmd)
  {
    var status := Mark(cmd.exitCode);
    ls := lines + ["\n### Command " + NatToString(n) + " " + status];
    ls := ls + ["```bash"];
    ls := ls + [cmd.command];
    ls := ls + ["```"];
    if cmd.output != [] {
      ls := ls + ["Output:"];
      ls := ls + ["```"];
      ls := ls + [cmd.output];
      ls := ls + ["```"];
    }
  }

  lemma PromptLinesStep(cs: seq<LoadedCommand>, i: nat)
    requires i < |cs|
    ensures PromptLines(cs[..i + 1]) == PromptLines(cs[..i]) + Block(i + 1, cs[i])
  {
    assert cs[..i + 1][..i] == cs[..i];
  }

  /** Exit code 0 (or `False`) shows a tick, anything else a cross followed by the code. */
  lemma MarkMeans(v: Value)
    ensures Mark(v) == "\U{2713}" <==> IsZero(v)
    ensures !IsZero(v) ==> Mark(v) == "\U{2717} (" + Render(v) + ")"
  {
    if !IsZero(v) {
      assert Mark(v)[0] == '\U{2717}';
    }
  }

  lemma {:induction false} PromptLinesPrefix(cs: seq<LoadedCommand>, k: nat)
    requires k <= |cs|
    ensures PromptLines(cs[..k]) <= PromptLines(cs)
    decreases |cs| - k
  {
    if k < |cs| {
      var init := cs[..|cs| - 1];
      assert init[..k] == cs[..k];
      PromptLinesPrefix(init, k);
    } else {
      assert cs[..k] == cs;
    }
  }

  /** Command `k` (from 0) appears as block number `k + 1`, right after the blocks of the commands before it. */
  lemma CommandBlock(cs: seq<LoadedCommand>, k: nat)
    requires k < |cs|
    ensures var start, b := |PromptLines(cs[..k])|, Block(k + 1, cs[k]);
      start + |b| <= |PromptLines(cs)| && PromptLines(cs)[start..start + |b|] == b
  {
    PromptLinesStep(cs, k);
    PromptLinesPrefix(cs, k + 1);
    SliceOfPrefix(PromptLines(cs[..k]), Block(k + 1, cs[k]), PromptLines(cs));
  }

  /** A block shows the command, and the whole output exactly when there is one. */
  lemma BlockOutput(n: nat, c: LoadedCommand)
    ensures |Block(n, c)| == (if c.output == [] then 4 else 8)
    ensures Block(n, c)[2] == c.command
    ensures c.output != [] ==> Block(n, c)[6] == c.output
  {
  }
}
