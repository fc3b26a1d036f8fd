/**
 * The strict notable-actions report: the high-signal labels a command earns
 * (full port scans, port-5000 pivots, custom wordlists, path traversal, SSH
 * brute force, database probing), the per-run hits with each command kept
 * once under each label, and the markdown report over all runs.
 */
module GenerateNotableStrict {
  import opened Wrappers
  import opened Text
  import opened Json
  import opened Counting
  import Actions = AnalyzeCoder56Actions
  import Unusual = AnalyzeUnusualActions

  // ---- the regular expressions ----

  /** What the starred item of a pattern repeats: one literal character, `.` (anything but a newline), or `\s`. */
  datatype Repeat = Char(c: char) | AnyButNewline | Whitespace

  predicate Admits(r: Repeat, ch: char) {
    match r
    case Char(c) => ch == c
    case AnyButNewline => ch != '\n'
    case Whitespace => IsSpace(ch)
  }

  /** `rep*` followed by the literal `post` matches `t` from index `j`. */
  predicate StarThen(t: string, j: nat, rep: Repeat, post: string)
    decreases |t| - j
  {
    SubAt(t, post, j) || (j < |t| && Admits(rep, t[j]) && StarThen(t, j + 1, rep, post))
  }

  /** `re.search` of the pattern `pre rep* post`, where `pre` and `post` are literal. */
  predicate SearchStar(t: string, pre: string, rep: Repeat, post: string) {
    exists i | 0 <= i <= |t| - |pre| :: SubAt(t, pre, i) && StarThen(t, i + |pre|, rep, post)
  }

  /**
   * The raw strings `r"-p\\s*1-65535"`, `r"-p\\s*5000"` and `r"-s\\s*5000"`
   * are the regexes "-p", a literal backslash, `s*`, then the digits: they
   * ask for a backslash, not for whitespace.
   */
  const FLAG_P := "-p\\"
  const FLAG_S := "-s\\"

  /** A search whose literal prefix holds a backslash never succeeds on a text without one. */
  lemma SearchNeedsBackslash(t: string, pre: string, rep: Repeat, post: string)
    requires '\\' in pre && '\\' !in t
    ensures !SearchStar(t, pre, rep, post)
  {
    forall i | 0 <= i <= |t| - |pre|
      ensures !SubAt(t, pre, i)
    {
      assert forall c | c in t[i..i + |pre|] :: c in t;
    }
  }

  /** The literal "/tmp/wordlists" test is subsumed by the regex `/tmp/.*wordlist`. */
  lemma WordlistLiteralMatches(t: string)
    requires Contains(t, "/tmp/wordlists")
    ensures SearchStar(t, "/tmp/", AnyButNewline, "wordlist")
  {
    var lit := "/tmp/wordlists";
    var i :| 0 <= i <= |t| - |lit| && SubAt(t, lit, i);
    assert lit == "/tmp/" + "wordlist" + "s";
    SubAtSplit(t, "/tmp/" + "wordlist", "s", i);
    SubAtSplit(t, "/tmp/", "wordlist", i);
    assert StarThen(t, i + 5, AnyButNewline, "wordlist");
  }

  /** An occurrence of `a + b` is an occurrence of `a` followed by one of `b`. */
  lemma SubAtSplit(t: string, a: string, b: string, i: int)
    requires SubAt(t, a + b, i)
    ensures SubAt(t, a, i) && SubAt(t, b, i + |a|)
  {
    var w := t[i..i + |a| + |b|];
    assert t[i..i + |a|] == w[..|a|];
    assert t[i + |a|..i + |a| + |b|] == w[|a|..];
  }

  // ---- the scan and pivot patterns, as evidently intended ----

  /** `rep*` over a run of `k` admitted characters, then `post`, matches from `j`. */
  lemma {:induction false} StarThenRun(t: string, j: nat, k: nat, rep: Repeat, post: string)
    requires j + k <= |t| && forall m | j <= m < j + k :: Admits(rep, t[m])
    requires SubAt(t, post, j + k)
    ensures StarThen(t, j, rep, post)
    decreases k
  {
    if k > 0 {
      StarThenRun(t, j + 1, k - 1, rep, post);
    }
  }

  /** A flag, a run of whitespace and a port, anywhere in a text, are found by the pattern `flag\s*port`. */
  lemma SpacedFlagFound(a: string, flag: string, gap: string, port: string, b: string)
    requires IsBlank(gap)
    ensures SearchStar(a + flag + gap + port + b, flag, Whitespace, port)
  {
    var t := a + flag + gap + port + b;
    var j := |a| + |flag|;
    assert t == a + flag + (gap + port + b);
    SubAtMiddle(a, flag, gap + port + b);
    SubAtMiddle(a + flag + gap, port, b);
    forall m | j <= m < j + |gap|
      ensures Admits(Whitespace, t[m])
    {
      assert t[m] == gap[m - j];
    }
    StarThenRun(t, j, |gap|, Whitespace, port);
  }

  /** The full-port-scan test with the single-backslash pattern `-p\s*1-65535`. */
  predicate FullPortScanIntended(cl: string) {
    Contains(cl, "nmap") && SearchStar(cl, "-p", Whitespace, "1-65535")
  }

  /** The port-5000 tests with the single-backslash patterns `:5000\b`, `-p\s*5000` and `-s\s*5000`. */
  predicate Port5000PivotIntended(c: string, cl: string) {
    || (exists i | 0 <= i <= |c| - 5 :: SubAt(c, ":5000", i) && WordBoundary(c, i + 5))
    || (Contains(cl, "nmap") && SearchStar(cl, "-p", Whitespace, "5000"))
    || (Contains(cl, "hydra") && SearchStar(cl, "-s", Whitespace, "5000"))
  }

  /** Port 5000 at the end of the command or before a non-word character is a pivot. */
  lemma PortSuffixPivot(a: string, b: string, cl: string)
    requires b == [] || !IsWordChar(b[0])
    ensures Port5000PivotIntended(a + ":5000" + b, cl)
  {
    var c := a + ":5000" + b;
    SubAtMiddle(a, ":5000", b);
    assert c[|a| + 4] == '0';
    assert SubAt(c, ":5000", |a|) && WordBoundary(c, |a| + 5);
  }

  /** An `nmap` command scanning every port with `-p` and some whitespace is a full port scan. */
  lemma FullScanFound(a: string, gap: string, b: string)
    requires IsBlank(gap) && Contains(a, "nmap")
    ensures FullPortScanIntended(a + "-p" + gap + "1-65535" + b)
  {
    var cl := a + "-p" + gap + "1-65535" + b;
    SpacedFlagFound(a, "-p", gap, "1-65535", b);
    assert cl == a + ("-p" + gap + "1-65535" + b);
    ContainsLeft(a, "-p" + gap + "1-65535" + b, "nmap");
  }

  /** `nmap -p 1-65535` before a host is no full port scan as written, and is one as intended. */
  lemma FullScanMissed(host: string)
    requires '\\' !in host
    ensures !SearchStar("nmap -p 1-65535 " + host, FLAG_P, Char('s'), "1-65535")
    ensures FullPortScanIntended("nmap -p 1-65535 " + host)
  {
    var cl := "nmap -p 1-65535 " + host;
    assert '\\' !in cl;
    SearchNeedsBackslash(cl, FLAG_P, Char('s'), "1-65535");
    ContainsPrefix("nmap ", "nmap");
    assert cl == "nmap " + "-p" + " " + "1-65535" + (" " + host);
    FullScanFound("nmap ", " ", " " + host);
  }

  // ---- categorize_strict ----

  datatype Label = FullPortScan | Port5000Pivot | CustomWordlist | PathTraversal | SshBruteforce | DbProbe

  function LabelName(l: Label): string {
    match l
    case FullPortScan => "full_port_scan"
    case Port5000Pivot => "port_5000_pivot"
    case CustomWordlist => "custom_wordlist"
    case PathTraversal => "path_traversal"
    case SshBruteforce => "ssh_bruteforce"
    case DbProbe => "db_probe"
  }

  /** `any(x in s for x in words)`. */
  predicate AnyContains(s: string, words: seq<string>) {
    exists i | 0 <= i < |words| :: Contains(s, words[i])
  }

  const WRITERS: seq<string> := ["mkdir", "cat", "printf", "echo", "tee", "awk", "sed"]
  const DB_WORDS: seq<string> := ["psql", "pg_dump", "postgres"]

  predicate CustomWordlistTest(cl: string) {
    (Contains(cl, "/tmp/wordlists") || SearchStar(cl, "/tmp/", AnyButNewline, "wordlist")) && AnyContains(cl, WRITERS)
  }

  predicate PathTraversalTest(c: string, cl: string) {
    (Contains(cl, "curl ") || Contains(cl, "wget ")) && (Contains(c, "../") || Contains(cl, "/.."))
  }

  function If(b: bool, l: Label): seq<Label> {
    if b then [l] else []
  }

  /**
   * The labels of `categorize_strict`, in the order its tests run, on the
   * stripped command `c` and its lower-cased form `cl`; a label is listed
   * once for each test that adds it.
   */
  function StrictLabels(c: string, cl: string): seq<Label> {
    HeadPart(c, cl)
    + If(Contains(cl, "hydra") && Contains(cl, " ssh"), SshBruteforce)
    + If(Contains(cl, "sshpass"), SshBruteforce)
    + If(AnyContains(cl, DB_WORDS), DbProbe)
  }

  /** The last two tests: database probing, and SSH brute force by hydra or sshpass. */
  lemma TailLabels(c: string, cl: string)
    ensures DbProbe in StrictLabels(c, cl) <==> AnyContains(cl, DB_WORDS)
    ensures SshBruteforce in StrictLabels(c, cl) <==> (Contains(cl, "hydra") && Contains(cl, " ssh")) || Contains(cl, "sshpass")
  {
    var head := HeadPart(c, cl);
    var ssh := If(Contains(cl, "hydra") && Contains(cl, " ssh"), SshBruteforce) + If(Contains(cl, "sshpass"), SshBruteforce);
    var db := If(AnyContains(cl, DB_WORDS), DbProbe);
    HeadPartLabels(c, cl);
    assert DbProbe !in head + ssh;
    assert SshBruteforce !in db;
  }

  /** The first six tests of `categorize_strict`: port scans, pivots, wordlists and path traversal. */
  function HeadPart(c: string, cl: string): seq<Label> {
    var nmap := Contains(cl, "nmap");
    var hydra := Contains(cl, "hydra");
    If(nmap && SearchStar(cl, FLAG_P, Char('s'), "1-65535"), FullPortScan)
    + If(Contains(c, ":5000\\b"), Port5000Pivot)
    + If(nmap && SearchStar(cl, FLAG_P, Char('s'), "5000"), Port5000Pivot)
    + If(hydra && SearchStar(cl, FLAG_S, Char('s'), "5000"), Port5000Pivot)
    + If(CustomWordlistTest(cl), CustomWordlist)
    + If(PathTraversalTest(c, cl), PathTraversal)
  }

  lemma HeadPartLabels(c: string, cl: string)
    ensures DbProbe !in HeadPart(c, cl) && SshBruteforce !in HeadPart(c, cl)
  {
  }

  /** The first four tests: the full port scan and the three port-5000 pivots. */
  lemma HeadLabels(c: string, cl: string)
    ensures FullPortScan in StrictLabels(c, cl) <==> Contains(cl, "nmap") && SearchStar(cl, FLAG_P, Char('s'), "1-65535")
    ensures Port5000Pivot in StrictLabels(c, cl) <==>
      || Contains(c, ":5000\\b")
      || (Contains(cl, "nmap") && SearchStar(cl, FLAG_P, Char('s'), "5000"))
      || (Contains(cl, "hydra") && SearchStar(cl, FLAG_S, Char('s'), "5000"))
  {
    var tail := If(Contains(cl, "hydra") && Contains(cl, " ssh"), SshBruteforce)
      + If(Contains(cl, "sshpass"), SshBruteforce) + If(AnyContains(cl, DB_WORDS), DbProbe);
    assert StrictLabels(c, cl) == HeadPart(c, cl) + tail;
    assert FullPortScan !in tail && Port5000Pivot !in tail;
  }

  /** `categorize_strict`: each label paired with the stripped command. */
  function CategorizeStrict(cmd: string): (items: seq<(Label, string)>)
    ensures forall k | 0 <= k < |items| :: items[k].1 == Strip(cmd)
    ensures |items| == |StrictLabels(Strip(cmd), Lower(Strip(cmd)))|
    ensures forall k | 0 <= k < |items| :: items[k].0 == StrictLabels(Strip(cmd), Lower(Strip(cmd)))[k]
  {
    var c := Strip(cmd);
    var labels := StrictLabels(c, Lower(c));
    seq(|labels|, k requires 0 <= k < |labels| => (labels[k], c))
  }

  /**
   * Because of the doubled backslashes, a command without a backslash is
   * neither a full port scan nor a port-5000 pivot, whatever ports it names.
   */
  lemma NoBackslashNoScan(cmd: string)
    requires '\\' !in cmd
    ensures FullPortScan !in StrictLabels(Strip(cmd), Lower(Strip(cmd)))
    ensures Port5000Pivot !in StrictLabels(Strip(cmd), Lower(Strip(cmd)))
  {
    var c := Strip(cmd);
    HeadLabels(c, Lower(c));
    StripChars(cmd);
    Unusual.LowerBackslash(c);
    SearchNeedsBackslash(Lower(c), FLAG_P, Char('s'), "1-65535");
    SearchNeedsBackslash(Lower(c), FLAG_P, Char('s'), "5000");
    SearchNeedsBackslash(Lower(c), FLAG_S, Char('s'), "5000");
    if Contains(c, ":5000\\b") {
      assert SubAt(":5000\\b", "\\", 5);
      ContainsTrans(c, ":5000\\b", "\\");
      ContainsChar(c, '\\');
    }
  }

  /** The custom-wordlist label needs only the regex and a writing tool: its literal test adds nothing. */
  lemma CustomWordlistMeans(cl: string)
    ensures CustomWordlistTest(cl) <==> SearchStar(cl, "/tmp/", AnyButNewline, "wordlist") && AnyContains(cl, WRITERS)
  {
    if Contains(cl, "/tmp/wordlists") {
      WordlistLiteralMatches(cl);
    }
  }

  /** Lower-casing keeps an occurrence: `Lower(sub)` occurs in `Lower(s)` wherever `sub` occurs in `s`. */
  lemma LowerContains(s: string, sub: string)
    requires Contains(s, sub)
    ensures Contains(Lower(s), Lower(sub))
  {
    var i :| 0 <= i <= |s| - |sub| && SubAt(s, sub, i);
    assert Lower(s)[i..i + |sub|] == Lower(sub) by {
      forall k | 0 <= k < |sub|
        ensures Lower(s)[i + k] == Lower(sub)[k]
      {
        assert s[i + k] == s[i..i + |sub|][k];
      }
    }
    assert SubAt(Lower(s), Lower(sub), i);
  }

  /** The stripped text is a piece of the original. */
  lemma {:induction false} StripInside(s: string)
    ensures Contains(s, Strip(s))
    decreases |s|
  {
    if s != [] && IsSpace(s[0]) {
      var rest := s[1..];
      assert Strip(s) == Strip(rest);
      StripInside(rest);
      ContainsRight([s[0]], rest, Strip(rest));
      assert [s[0]] + rest == s;
    } else if s != [] && IsSpace(s[|s| - 1]) {
      var rest := s[..|s| - 1];
      assert Strip(s) == Strip(rest);
      StripInside(rest);
      ContainsLeft(rest, [s[|s| - 1]], Strip(rest));
      assert rest + [s[|s| - 1]] == s;
    } else {
      assert SubAt(s, s, 0);
    }
  }

  /** A word found in the stripped, lower-cased command is found in the lower-cased command. */
  lemma StrippedWord(cmd: string, w: string)
    requires Contains(Lower(Strip(cmd)), w)
    ensures Contains(Lower(cmd), w)
  {
    StripInside(cmd);
    LowerContains(cmd, Strip(cmd));
    ContainsTrans(Lower(cmd), Lower(Strip(cmd)), w);
  }

  /** A strict database probe is a database action of the notable-actions analysis. */
  lemma DbProbeIsDbAction(cmd: string)
    requires DbProbe in StrictLabels(Strip(cmd), Lower(Strip(cmd)))
    ensures Actions.DbActions in Actions.Categorize(cmd)
  {
    var cl := Lower(Strip(cmd));
    TailLabels(Strip(cmd), cl);
    var k :| 0 <= k < |DB_WORDS| && Contains(cl, DB_WORDS[k]);
    StrippedWord(cmd, DB_WORDS[k]);
    DbWordIsDbAction(cmd, k);
  }

  lemma DbWordIsDbAction(cmd: string, k: nat)
    requires k < |DB_WORDS| && Contains(Lower(cmd), DB_WORDS[k])
    ensures Actions.DbActions in Actions.Categorize(cmd)
  {
    var ws := ["psql", "postgres", "pg_dump"];
    assert Actions.TestOf(Actions.DbActions) == Actions.AnyOf(ws);
    if k == 0 {
      assert Contains(Lower(cmd), ws[0]);
    } else if k == 1 {
      assert Contains(Lower(cmd), ws[2]);
    } else {
      assert Contains(Lower(cmd), ws[1]);
    }
    Actions.CategorizeTag(cmd, Actions.DbActions);
  }

  /** A strict SSH brute force is a hydra run or an SSH attempt of the notable-actions analysis. */
  lemma SshBruteforceIsSsh(cmd: string)
    requires SshBruteforce in StrictLabels(Strip(cmd), Lower(Strip(cmd)))
    ensures Contains(Lower(cmd), "hydra") || Actions.SshAttempt in Actions.Categorize(cmd)
  {
    var cl := Lower(Strip(cmd));
    TailLabels(Strip(cmd), cl);
    if Contains(cl, "hydra") {
      StrippedWord(cmd, "hydra");
    } else {
      StrippedWord(cmd, "sshpass");
      SshpassIsSsh(cmd);
    }
  }

  lemma SshpassIsSsh(cmd: string)
    requires Contains(Lower(cmd), "sshpass")
    ensures Actions.SshAttempt in Actions.Categorize(cmd)
  {
    var ws := ["ssh ", "sshpass"];
    assert Actions.TestOf(Actions.SshAttempt) == Actions.AnyOf(ws);
    assert Contains(Lower(cmd), ws[1]);
    Actions.CategorizeTag(cmd, Actions.SshAttempt);
  }

  // ---- the hits of one run ----

  /** `hits`: labels in first-seen order, each with its commands in first-seen order. */
  type Hits = seq<(Label, seq<string>)>

  function LabelsOf(h: Hits): set<Label> {
    set k | 0 <= k < |h| :: h[k].0
  }

  predicate NoDuplicates<T(==)>(s: seq<T>) {
    forall i, j | 0 <= i < j < |s| :: s[i] != s[j]
  }

  /** No label twice, and every label's list non-empty and without repeats. */
  predicate WellFormed(h: Hits) {
    && (forall i, j | 0 <= i < j < |h| :: h[i].0 != h[j].0)
    && (forall k | 0 <= k < |h| :: h[k].1 != [] && NoDuplicates(h[k].1))
  }

  /** `hits.get(label, [])`. */
  function Lookup(h: Hits, l: Label): seq<string>
    decreases |h|
  {
    if h == [] then [] else if h[0].0 == l then h[0].1 else Lookup(h[1..], l)
  }

  /** `hits.setdefault(label, [])`, then the command appended unless already listed. */
  function AddHit(h: Hits, l: Label, text: string): Hits
    decreases |h|
  {
    if h == [] then [(l, [text])]
    else if h[0].0 == l then [(l, if text in h[0].1 then h[0].1 else h[0].1 + [text])] + h[1..]
    else [h[0]] + AddHit(h[1..], l, text)
  }

  /** The commands under a label grow by the new one, when new; no other label changes. */
  lemma {:induction false} AddHitLookup(h: Hits, l: Label, text: string, m: Label)
    ensures Lookup(AddHit(h, l, text), m) ==
      if m != l then Lookup(h, m) else if text in Lookup(h, l) then Lookup(h, l) else Lookup(h, l) + [text]
    decreases |h|
  {
    if h != [] && h[0].0 != l {
      AddHitLookup(h[1..], l, text, m);
    }
  }

  /** Looking a label up finds its entry, or nothing when it is absent. */
  lemma {:induction false} LookupMeans(h: Hits, l: Label)
    requires WellFormed(h)
    ensures l in LabelsOf(h) <==> Lookup(h, l) != []
    ensures forall k | 0 <= k < |h| && h[k].0 == l :: Lookup(h, l) == h[k].1
    ensures NoDuplicates(Lookup(h, l))
    decreases |h|
  {
    if h != [] {
      LookupMeans(h[1..], l);
      LabelsCons(h);
      forall k | 0 <= k < |h| && h[k].0 == l
        ensures Lookup(h, l) == h[k].1
      {
        if k > 0 {
          assert h[1..][k - 1] == h[k];
        }
      }
    }
  }

  /** The labels of a non-empty list: its head's and its tail's. */
  lemma LabelsCons(h: Hits)
    requires h != []
    ensures LabelsOf(h) == {h[0].0} + LabelsOf(h[1..])
  {
    forall x | x in LabelsOf(h) ensures x in {h[0].0} + LabelsOf(h[1..]) {
      var k :| 0 <= k < |h| && h[k].0 == x;
      if k > 0 {
        assert h[1..][k - 1].0 == x;
      }
    }
    forall x | x in LabelsOf(h[1..]) ensures x in LabelsOf(h) {
      var k :| 0 <= k < |h[1..]| && h[1..][k].0 == x;
      assert h[k + 1].0 == x;
    }
  }

  /** Adding a hit keeps the hits well formed. */
  lemma {:induction false} AddHitWellFormed(h: Hits, l: Label, text: string)
    requires WellFormed(h)
    ensures WellFormed(AddHit(h, l, text))
    ensures LabelsOf(AddHit(h, l, text)) == LabelsOf(h) + {l}
    decreases |h|
  {
    if h == [] {
      assert LabelsOf(AddHit(h, l, text)) == {l} by {
        assert AddHit(h, l, text)[0].0 == l;
      }
    } else if h[0].0 == l {
      AddHitHere(h, l, text);
    } else {
      AddHitWellFormed(h[1..], l, text);
      AddHitLater(h, l, text);
    }
  }

  /** Adding under the first label: that list grows by the command if new. */
  lemma AddHitHere(h: Hits, l: Label, text: string)
    requires WellFormed(h) && h != [] && h[0].0 == l
    ensures WellFormed(AddHit(h, l, text))
    ensures LabelsOf(AddHit(h, l, text)) == LabelsOf(h) + {l}
  {
    var old1 := h[0].1;
    var new1 := if text in old1 then old1 else old1 + [text];
    var r := AddHit(h, l, text);
    assert r == [(l, new1)] + h[1..];
    assert NoDuplicates(new1) by {
      if text !in old1 {
        forall i, j | 0 <= i < j < |new1| ensures new1[i] != new1[j] {
          if j == |old1| {
            assert new1[i] == old1[i];
          }
        }
      }
    }
    forall k | 0 <= k < |r| ensures r[k].1 != [] && NoDuplicates(r[k].1) {
      if k > 0 {
        assert r[k] == h[k];
      }
    }
    LabelsCons(h);
    LabelsCons(r);
    assert r[1..] == h[1..];
  }

  /** Adding under a later label, given the tail's own step. */
  lemma AddHitLater(h: Hits, l: Label, text: string)
    requires WellFormed(h) && h != [] && h[0].0 != l
    requires WellFormed(AddHit(h[1..], l, text)) && LabelsOf(AddHit(h[1..], l, text)) == LabelsOf(h[1..]) + {l}
    ensures WellFormed(AddHit(h, l, text))
    ensures LabelsOf(AddHit(h, l, text)) == LabelsOf(h) + {l}
  {
    var t := h[1..];
    assert h[0].0 !in LabelsOf(t) by {
      forall k | 0 <= k < |t| ensures t[k].0 != h[0].0 {
        assert t[k] == h[k + 1];
      }
    }
    assert h[0].1 != [] && NoDuplicates(h[0].1);
    WellFormedCons(h[0], AddHit(t, l, text));
    LabelsCons(h);
  }

  /** An entry whose label is new, put in front of well-formed hits, keeps them well formed. */
  lemma WellFormedCons(x: (Label, seq<string>), t: Hits)
    requires WellFormed(t) && x.0 !in LabelsOf(t) && x.1 != [] && NoDuplicates(x.1)
    ensures WellFormed([x] + t)
    ensures LabelsOf([x] + t) == {x.0} + LabelsOf(t)
  {
    var r := [x] + t;
    forall i, j | 0 <= i < j < |r| ensures r[i].0 != r[j].0 {
      assert r[j] == t[j - 1];
      if i > 0 {
        assert r[i] == t[i - 1];
      }
    }
    forall k | 0 <= k < |r| ensures r[k].1 != [] && NoDuplicates(r[k].1) {
      if k > 0 {
        assert r[k] == t[k - 1];
      }
    }
    LabelsCons(r);
    assert r[1..] == t;
  }

  /** The hits after adding `items` in order to `h`. */
  function AddAll(h: Hits, items: seq<(Label, string)>): Hits
    decreases |items|
  {
    if items == [] then h
    else AddHit(AddAll(h, items[..|items| - 1]), items[|items| - 1].0, items[|items| - 1].1)
  }

  lemma AddAllSnoc(h: Hits, items: seq<(Label, string)>, item: (Label, string))
    ensures AddAll(h, items + [item]) == AddHit(AddAll(h, items), item.0, item.1)
  {
    assert (items + [item])[..|items|] == items;
  }

  lemma {:induction false} AddAllAppend(h: Hits, a: seq<(Label, string)>, b: seq<(Label, string)>)
    ensures AddAll(h, a + b) == AddAll(AddAll(h, a), b)
    decreases |b|
  {
    if b == [] {
      assert a + b == a;
    } else {
      var init, last := b[..|b| - 1], b[|b| - 1];
      calc {
        AddAll(h, a + b);
        { assert a + b == (a + init) + [last]; }
        AddAll(h, (a + init) + [last]);
        { AddAllSnoc(h, a + init, last); }
        AddHit(AddAll(h, a + init), last.0, last.1);
        { AddAllAppend(h, a, init); }
        AddHit(AddAll(AddAll(h, a), init), last.0, last.1);
        { AddAllSnoc(AddAll(h, a), init, last); assert init + [last] == b; }
        AddAll(AddAll(h, a), b);
      }
    }
  }

  /** The items of all commands of a run, command after command. */
  function RunItems(cmds: seq<string>): seq<(Label, string)>
    decreases |cmds|
  {
    if cmds == [] then [] else RunItems(cmds[..|cmds| - 1]) + CategorizeStrict(cmds[|cmds| - 1])
  }

  /** The `hits` dictionary of a run. */
  function RunHits(cmds: seq<string>): Hits {
    AddAll([], RunItems(cmds))
  }

  /**
   * The hits of any items are well formed, list a command under a label
   * exactly when some item pairs them, and are empty exactly when there
   * are no items.
   */
  lemma {:induction false} AddAllMeans(items: seq<(Label, string)>)
    ensures WellFormed(AddAll([], items))
    ensures forall l, text :: text in Lookup(AddAll([], items), l) <==> (l, text) in items
    ensures AddAll([], items) == [] <==> items == []
    decreases |items|
  {
    if items != [] {
      var init, last := items[..|items| - 1], items[|items| - 1];
      var h := AddAll([], init);
      AddAllMeans(init);
      AddHitWellFormed(h, last.0, last.1);
      SplitLast(items);
      forall l, text
        ensures text in Lookup(AddAll([], items), l) <==> (l, text) in items
      {
        AddHitLookup(h, last.0, last.1, l);
      }
      assert last.0 in LabelsOf(AddAll([], items));
    }
  }

  /** The hits of a run list `text` under `l` exactly when some command of the run earns `l` with `text`, and list it once. */
  lemma RunHitsMeans(cmds: seq<string>)
    ensures WellFormed(RunHits(cmds))
    ensures forall l, text :: text in Lookup(RunHits(cmds), l) <==> (l, text) in RunItems(cmds)
    ensures RunHits(cmds) == [] <==> RunItems(cmds) == []
  {
    AddAllMeans(RunItems(cmds));
  }

  /** The hits loop of `main` over the commands of one run. */
  method CollectHits(cmds: seq<string>) returns (hits: Hits)
    ensures hits == RunHits(cmds)
  {
    hits := [];
    var j := 0;
    while j < |cmds|
      invariant 0 <= j <= |cmds|
      invariant hits == RunHits(cmds[..j])
    {
      var items := CategorizeStrict(cmds[j]);
      ItemsPrefix(cmds, j);
      AddAllAppend([], RunItems(cmds[..j]), items);
      hits := AddItems(hits, items);
      j := j + 1;
    }
    assert cmds[..j] == cmds;
  }

  lemma ItemsPrefix(cmds: seq<string>, j: nat)
    requires j < |cmds|
    ensures RunItems(cmds[..j + 1]) == RunItems(cmds[..j]) + CategorizeStrict(cmds[j])
  {
    assert cmds[..j + 1][..j] == cmds[..j];
  }

  /** The inner loop: each item of one command added in turn. */
  method AddItems(h: Hits, items: seq<(Label, string)>) returns (r: Hits)
    ensures r == AddAll(h, items)
  {
    r := h;
    var k := 0;
    while k < |items|
      invariant 0 <= k <= |items|
      invariant r == AddAll(h, items[..k])
    {
      AddAllSnoc(h, items[..k], items[k]);
      assert items[..k + 1] == items[..k] + [items[k]];
      r := AddHit(r, items[k].0, items[k].1);
      k := k + 1;
    }
    assert items[..k] == items;
  }

  // ---- the report ----

  /** A run in the report: its id, its goal and its hits. */
  datatype KeptRun = KeptRun(runId: string, goal: string, hits: Hits)

  /** `row.get('goal', '')`. */
  function GoalOf(row: Actions.Row): string {
    if "goal" in row then row["goal"] else ""
  }

  /** A row's run, when it has a run id and at least one hit. */
  function RowKept(row: Actions.Row, dirs: Actions.Listing, parse: Parser): (k: Option<KeptRun>)
    ensures k.Some? ==> k.value.hits != [] && Actions.RunIdOf(row) == Some(k.value.runId)
  {
    match Actions.RunIdOf(row)
    case None => None
    case Some(id) =>
      var h := RunHits(Unusual.DirCommands(dirs(id), parse));
      if h == [] then None else Some(KeptRun(id, GoalOf(row), h))
  }

  /** The runs the report lists, in row order. */
  function Kept(rows: seq<Actions.Row>, dirs: Actions.Listing, parse: Parser): seq<KeptRun>
    decreases |rows|
  {
    if rows == [] then []
    else
      var k := RowKept(rows[|rows| - 1], dirs, parse);
      Kept(rows[..|rows| - 1], dirs, parse) + (if k.Some? then [k.value] else [])
  }

  function Bullets(cmds: seq<string>): string
    decreases |cmds|
  {
    if cmds == [] then [] else "- `" + cmds[0] + "`\n" + Bullets(cmds[1..])
  }

  function Blocks(h: Hits): string
    decreases |h|
  {
    if h == [] then [] else "### " + LabelName(h[0].0) + "\n" + Bullets(h[0].1) + "\n" + Blocks(h[1..])
  }

  function Section(k: KeptRun): string {
    "## Run " + k.runId + "\n" + "Goal: " + k.goal + "\n\n" + Blocks(k.hits)
  }

  function Sections(ks: seq<KeptRun>): string
    decreases |ks|
  {
    if ks == [] then [] else Sections(ks[..|ks| - 1]) + Section(ks[|ks| - 1])
  }

  const INTRO := "# Notable Attacker Actions (Strict)\n\n"
    + "Strict filter: full-port scans, port-5000 pivots, custom wordlist creation, "
    + "path traversal attempts, SSH brute force pivots, DB probing.\n\n"

  /** The closing line as written: each escaped `\\n` is a backslash followed by `n`, not a line break. */
  function FooterAsWritten(n: nat): string {
    "\\nRuns with notable actions (strict): " + NatToString(n) + "\\n"
  }

  /** The closing line as intended: a blank line, the count, and a line break. */
  function Footer(n: nat): string {
    "\nRuns with notable actions (strict): " + NatToString(n) + "\n"
  }

  /** As written, the footer holds no line break at all and shows a backslash where the break was meant. */
  lemma FooterAsWrittenHasNoBreak(n: nat)
    ensures '\n' !in FooterAsWritten(n)
    ensures FooterAsWritten(n)[0] == '\\' && FooterAsWritten(n)[|FooterAsWritten(n)| - 1] == 'n'
  {
    var d := NatToString(n);
    assert forall c | c in d :: IsDigit(c);
  }

  /** The intended footer is a line of its own, closed by a line break, and the count reads back. */
  lemma FooterEndsLine(n: nat)
    ensures var f := Footer(n); f[0] == '\n' && f[|f| - 1] == '\n'
    ensures var p := "\nRuns with notable actions (strict): "; Footer(n)[|p|..|Footer(n)| - 1] == NatToString(n)
    ensures DigitsValue(NatToString(n)) == n
  {
    NatToStringRoundTrip(n);
  }

  /** The report file, for a non-empty CSV, ending with the footer as the source writes it. */
  function Report(rows: seq<Actions.Row>, dirs: Actions.Listing, parse: Parser): string {
    var ks := Kept(rows, dirs, parse);
    ReportHead(ks) + FooterAsWritten(|ks|)
  }

  /** The report with the intended footer. */
  function ReportIntended(rows: seq<Actions.Row>, dirs: Actions.Listing, parse: Parser): string {
    var ks := Kept(rows, dirs, parse);
    ReportHead(ks) + Footer(|ks|)
  }

  /** Everything the report holds before its footer: the intro and one section per kept run. */
  function ReportHead(ks: seq<KeptRun>): string {
    INTRO + Sections(ks)
  }

  /**
   * The report as written and the intended one share everything up to the
   * footer; the written one ends in a backslash and `n` with no line break
   * after the last section, the intended one in a line break.
   */
  lemma ReportFooters(rows: seq<Actions.Row>, dirs: Actions.Listing, parse: Parser)
    ensures var ks := Kept(rows, dirs, parse); var head := ReportHead(ks);
      var r, ri := Report(rows, dirs, parse), ReportIntended(rows, dirs, parse);
      && |head| < |r| && r[..|head|] == head && ri[..|head|] == head
      && '\n' !in r[|head|..] && r[|r| - 2..] == "\\n"
      && ri[|head|] == '\n' && ri[|ri| - 1] == '\n'
  {
    var ks := Kept(rows, dirs, parse);
    FootersAfter(ReportHead(ks), |ks|);
  }

  /** Any text followed by either footer. */
  lemma FootersAfter(head: string, n: nat)
    ensures var r, ri := head + FooterAsWritten(n), head + Footer(n);
      && |head| < |r| && r[..|head|] == head && ri[..|head|] == head
      && '\n' !in r[|head|..] && r[|r| - 2..] == "\\n"
      && ri[|head|] == '\n' && ri[|ri| - 1] == '\n'
  {
    var f, fi := FooterAsWritten(n), Footer(n);
    FooterAsWrittenHasNoBreak(n);
    FooterEndsLine(n);
    var r := head + f;
    assert r[..|head|] == head && r[|head|..] == f;
    assert (head + fi)[..|head|] == head;
    assert r[|r| - 2..] == f[|f| - 2..];
    assert f[|f| - 2] == '\\';
  }

  /** One row of the loop of `main`. */
  method StrictRow(row: Actions.Row, dirs: Actions.Listing, parse: Parser) returns (k: Option<KeptRun>)
    ensures k == RowKept(row, dirs, parse)
  {
    var runId := Actions.RunIdOf(row);
    if runId.None? {
      return None;
    }
    var cmds := Unusual.LoadCommands(dirs(runId.value), parse);
    var hits := CollectHits(cmds);
    if hits == [] {
      return None;
    }
    return Some(KeptRun(runId.value, GoalOf(row), hits));
  }

  /** `main`: nothing for a CSV without rows, otherwise the report it writes. */
  method NotableStrict(rows: seq<Actions.Row>, dirs: Actions.Listing, parse: Parser) returns (report: Option<string>)
    ensures report.None? <==> rows == []
    ensures report.Some? ==> report.value == Report(rows, dirs, parse)
  {
    if rows == [] {
      return None;
    }
    var body := "";
    var keptRuns := 0;
    var i := 0;
    assert Kept(rows[..0], dirs, parse) == [];
    while i < |rows|
      invariant 0 <= i <= |rows|
      invariant body == Sections(Kept(rows[..i], dirs, parse))
      invariant keptRuns == |Kept(rows[..i], dirs, parse)|
    {
      var k := StrictRow(rows[i], dirs, parse);
      ReportStep(rows, i, dirs, parse);
      if k.Some? {
        body := body + Section(k.value);
        keptRuns := keptRuns + 1;
      }
      i := i + 1;
    }
    assert rows[..i] == rows;
    return Some(INTRO + body + FooterAsWritten(keptRuns));
  }

  /** One more row adds its section, if it has one, and one to the count. */
  lemma ReportStep(rows: seq<Actions.Row>, i: nat, dirs: Actions.Listing, parse: Parser)
    requires i < |rows|
    ensures var k := RowKept(rows[i], dirs, parse);
      var before, after := Kept(rows[..i], dirs, parse), Kept(rows[..i + 1], dirs, parse);
      && |after| == |before| + (if k.Some? then 1 else 0)
      && Sections(after) == Sections(before) + (if k.Some? then Section(k.value) else [])
  {
    assert rows[..i + 1][..i] == rows[..i];
    var k := RowKept(rows[i], dirs, parse);
    var before := Kept(rows[..i], dirs, parse);
    if k.Some? {
      SectionsSnoc(before, k.value);
    } else {
      assert before + [] == before;
    }
  }

  lemma SectionsSnoc(ks: seq<KeptRun>, k: KeptRun)
    ensures Sections(ks + [k]) == Sections(ks) + Section(k)
  {
    assert (ks + [k])[..|ks|] == ks;
  }

  /** The positions of the rows whose run gets a section. */
  function KeptRows(rows: seq<Actions.Row>, dirs: Actions.Listing, parse: Parser): set<nat> {
    MarkedBy(rows, IsKept(dirs, parse))
  }

  /** Whether a row's run gets a section. */
  function IsKept(dirs: Actions.Listing, parse: Parser): Actions.Row -> bool {
    row => RowKept(row, dirs, parse).Some?
  }

  /** `kept_runs` counts exactly the rows with a run id whose run has at least one hit. */
  lemma {:induction false} KeptCount(rows: seq<Actions.Row>, dirs: Actions.Listing, parse: Parser)
    ensures |Kept(rows, dirs, parse)| == |KeptRows(rows, dirs, parse)|
    decreases |rows|
  {
    if rows != [] {
      KeptCount(rows[..|rows| - 1], dirs, parse);
      MarkedBySnoc(rows, IsKept(dirs, parse));
    }
  }

  /** Every listed run has a non-empty id and at least one hit. */
  lemma {:induction false} KeptNonEmpty(rows: seq<Actions.Row>, dirs: Actions.Listing, parse: Parser)
    ensures forall k | k in Kept(rows, dirs, parse) :: k.hits != [] && k.runId != []
    decreases |rows|
  {
    if rows != [] {
      KeptNonEmpty(rows[..|rows| - 1], dirs, parse);
    }
  }
}
