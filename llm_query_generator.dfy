/**
 * The LLM-driven query generator of the John Scott NPC: it cleans the SQL
 * an LLM returns, falls back to fixed queries when the LLM gives nothing,
 * wraps each query in an SSH command that runs psql on the compromised
 * host, and lays a session of such commands out as a GHOSTS timeline.
 * The LLM's reply and every random choice are inputs.
 */
module LlmQueryGenerator {
  import opened Wrappers
  import opened Text
  import opened Ghosts

  // ----- Cleaning the LLM's reply -----

  /** A Markdown code fence, and the opening fence of an SQL block. */
  const FENCE: string := "```"
  const SQL_FENCE: string := "```sql"

  /** No three backticks in a row: no code fence is left in `t`. */
  predicate NoFence(t: string) {
    forall i | 0 <= i < |t| - 2 :: !(t[i] == '`' && t[i + 1] == '`' && t[i + 2] == '`')
  }

  /** Whitespace only as single spaces, never two in a row: what `re.sub(r'\s+', ' ', _)` leaves. */
  predicate SingleSpaced(t: string) {
    && (forall i | 0 <= i < |t| :: IsSpace(t[i]) ==> t[i] == ' ')
    && (forall i | 0 <= i < |t| - 1 :: !(IsSpace(t[i]) && IsSpace(t[i + 1])))
  }

  /** `_clean_query`: the code fences removed, the text stripped and every whitespace run collapsed. */
  function CleanQuery(q: string): string {
    Collapse(Strip(Replace(Replace(q, SQL_FENCE, ""), FENCE, "")))
  }

  /**
   * What `_clean_query` leaves has no fence, starts and ends with
   * something other than whitespace, and is single spaced.
   */
  lemma CleanQueryClean(q: string)
    ensures var r := CleanQuery(q);
      && (r != [] ==> !IsSpace(r[0]) && !IsSpace(r[|r| - 1]))
      && SingleSpaced(r)
      && NoFence(r)
  {
    var unfenced := Replace(Replace(q, SQL_FENCE, ""), FENCE, "");
    FencesRemoved(Replace(q, SQL_FENCE, ""));
    StripKeepsNoFence(unfenced);
    CollapseKeepsNoFence(Strip(unfenced));
  }

  /** Dropping the first character of a text that does not open with a fence keeps it in front. */
  lemma ReplaceFenceStep(s: string)
    requires s != [] && !(|s| >= 3 && s[0] == '`' && s[1] == '`' && s[2] == '`')
    ensures Replace(s, FENCE, "") == [s[0]] + Replace(s[1..], FENCE, "")
  {
    if |s| < 3 {
      assert [s[0]] + s[1..] == s;
    } else {
      assert s[..3][0] == s[0] && s[..3][1] == s[1] && s[..3][2] == s[2];
    }
  }

  /** A backtick in front of a fence-free text that does not open with two more. */
  lemma NoFenceBacktickCons(v: string)
    requires NoFence(v) && !(|v| >= 2 && v[0] == '`' && v[1] == '`')
    ensures NoFence(['`'] + v)
  {
    var w := ['`'] + v;
    forall i | 0 <= i < |w| - 2 ensures !(w[i] == '`' && w[i + 1] == '`' && w[i + 2] == '`') {
      if i == 0 {
        assert w[1] == v[0] && w[2] == v[1];
      } else {
        assert w[i] == v[i - 1] && w[i + 1] == v[i] && w[i + 2] == v[i + 1];
      }
    }
  }

  /** A character other than a backtick in front of a fence-free text. */
  lemma NoFenceCons(c: char, v: string)
    requires c != '`' && NoFence(v)
    ensures NoFence([c] + v)
  {
    var w := [c] + v;
    forall i | 0 < i < |w| - 2 ensures !(w[i] == '`' && w[i + 1] == '`' && w[i + 2] == '`') {
      assert w[i] == v[i - 1] && w[i + 1] == v[i] && w[i + 2] == v[i + 1];
    }
  }

  /** `s.replace("```", "")` leaves no three backticks in a row: a longer run keeps less than three. */
  lemma {:induction false} FencesRemoved(s: string)
    ensures NoFence(Replace(s, FENCE, ""))
    decreases |s|
  {
    if |s| < 3 {
    } else if s[..3] == FENCE {
      FencesRemoved(s[3..]);
    } else if s[0] != '`' {
      ReplaceFenceStep(s);
      FencesRemoved(s[1..]);
      NoFenceCons(s[0], Replace(s[1..], FENCE, ""));
    } else if s[1] != '`' {
      FencesRemoved(s[2..]);
      OneBacktickFirst(s);
    } else {
      FencesRemoved(s[3..]);
      TwoBackticksFirst(s);
    }
  }

  /** A lone backtick in front: the backtick and the next character stay, then the rest. */
  lemma OneBacktickFirst(s: string)
    requires |s| >= 3 && s[0] == '`' && s[1] != '`'
    requires NoFence(Replace(s[2..], FENCE, ""))
    ensures NoFence(Replace(s, FENCE, ""))
  {
    var rest := Replace(s[2..], FENCE, "");
    ReplaceFenceStep(s);
    assert s[1..][0] == s[1];
    ReplaceFenceStep(s[1..]);
    assert s[1..][1..] == s[2..];
    NoFenceCons(s[1], rest);
    NoFenceBacktickCons([s[1]] + rest);
  }

  /** Two backticks in front and a third character that is not one: all three stay, then the rest. */
  lemma TwoBackticksFirst(s: string)
    requires |s| >= 3 && s[0] == '`' && s[1] == '`' && s[2] != '`'
    requires NoFence(Replace(s[3..], FENCE, ""))
    ensures NoFence(Replace(s, FENCE, ""))
  {
    var t1, t2, t3 := s[1..], s[2..], s[3..];
    var rest := Replace(t3, FENCE, "");
    ReplaceFenceStep(s);
    assert t1[0] == s[1] && t1[1] == s[2] && t1[1..] == t2;
    ReplaceFenceStep(t1);
    assert t2[0] == s[2] && t2[1..] == t3;
    ReplaceFenceStep(t2);
    assert Replace(s, FENCE, "") == ['`'] + (['`'] + ([s[2]] + rest));
    TwoBackticksCons(s[2], rest);
  }

  /** Two backticks and a character other than a backtick in front of a fence-free text. */
  lemma TwoBackticksCons(c: char, rest: string)
    requires c != '`' && NoFence(rest)
    ensures NoFence(['`'] + (['`'] + ([c] + rest)))
  {
    NoFenceCons(c, rest);
    NoFenceBacktickCons([c] + rest);
    NoFenceBacktickCons(['`'] + ([c] + rest));
  }

  lemma NoFenceSlice(s: string, a: nat, b: nat)
    requires a <= b <= |s| && NoFence(s)
    ensures NoFence(s[a..b])
  {
    forall i | 0 <= i < |s[a..b]| - 2 ensures !(s[a..b][i] == '`' && s[a..b][i + 1] == '`' && s[a..b][i + 2] == '`') {
      assert s[a..b][i] == s[a + i] && s[a..b][i + 1] == s[a + i + 1] && s[a..b][i + 2] == s[a + i + 2];
    }
  }

  lemma {:induction false} StripKeepsNoFence(s: string)
    requires NoFence(s)
    ensures NoFence(Strip(s))
    decreases |s|
  {
    if s != [] && IsSpace(s[0]) {
      NoFenceSlice(s, 1, |s|);
      StripKeepsNoFence(s[1..]);
    } else if s != [] && IsSpace(s[|s| - 1]) {
      NoFenceSlice(s, 0, |s| - 1);
      StripKeepsNoFence(s[..|s| - 1]);
    }
  }

  /** Collapsing whitespace cannot bring backticks together: a run of them never held whitespace. */
  lemma {:induction false} CollapseKeepsNoFence(s: string)
    requires NoFence(s)
    ensures NoFence(Collapse(s))
    decreases |s|
  {
    if s == [] {
    } else if IsSpace(s[0]) {
      var t := LStrip(s);
      NoFenceSlice(s, |s| - |t|, |s|);
      CollapseKeepsNoFence(t);
      CollapseSpaceHead(s);
    } else {
      NoFenceSlice(s, 1, |s|);
      CollapseKeepsNoFence(s[1..]);
      CollapseOtherHead(s);
    }
  }

  /** A whitespace run in front collapses to one space before the collapse of the rest. */
  lemma CollapseSpaceHead(s: string)
    requires s != [] && IsSpace(s[0]) && NoFence(Collapse(LStrip(s)))
    ensures NoFence(Collapse(s))
  {
    var c := Collapse(LStrip(s));
    assert Collapse(s) == [' '] + c;
    NoFenceCons(' ', c);
  }

  /** Any other character in front is kept before the collapse of the rest. */
  lemma CollapseOtherHead(s: string)
    requires s != [] && !IsSpace(s[0]) && NoFence(s) && NoFence(Collapse(s[1..]))
    ensures NoFence(Collapse(s))
  {
    var c := Collapse(s[1..]);
    assert Collapse(s) == [s[0]] + c;
    if s[0] != '`' {
      NoFenceCons(s[0], c);
    } else {
      CollapseBacktickHead(s);
    }
  }

  /**
   * A backtick in front: two more backticks right after it in the collapse
   * would have to be the next two characters of `s`, which has no fence.
   */
  lemma CollapseBacktickHead(s: string)
    requires s != [] && s[0] == '`' && NoFence(s) && NoFence(Collapse(s[1..]))
    ensures NoFence(Collapse(s))
  {
    var t := s[1..];
    var r := Collapse(s);
    var c := Collapse(t);
    assert r == ['`'] + c;
    if |c| >= 2 && c[0] == '`' {
      var u := t[1..];
      assert c == [t[0]] + Collapse(u);
      assert u[0] == s[2];
      assert !(s[0] == '`' && s[1] == '`' && s[2] == '`');
      assert c[1] != '`';
    }
    NoFenceBacktickCons(c);
  }

  /** With no fence in `s`, removing a pattern that opens with one changes nothing. */
  lemma {:induction false} ReplaceNoFence(s: string, pat: string)
    requires |pat| >= 3 && pat[..3] == FENCE && NoFence(s)
    ensures Replace(s, pat, "") == s
    decreases |s|
  {
    if |s| >= |pat| {
      assert !(s[0] == '`' && s[1] == '`' && s[2] == '`');
      assert s[..|pat|] != pat by {
        assert pat[0] == '`' && pat[1] == '`' && pat[2] == '`' by { assert pat[..3][0] == pat[0]; }
      }
      NoFenceSlice(s, 1, |s|);
      ReplaceNoFence(s[1..], pat);
      assert [s[0]] + s[1..] == s;
    }
  }

  /** A single-spaced text is its own collapse. */
  lemma {:induction false} CollapseSingleSpaced(s: string)
    requires SingleSpaced(s)
    ensures Collapse(s) == s
    decreases |s|
  {
    if s != [] {
      SingleSpacedTail(s);
      CollapseSingleSpaced(s[1..]);
      if IsSpace(s[0]) {
        SingleSpaceStrip(s);
      }
      assert [s[0]] + s[1..] == s;
    }
  }

  lemma SingleSpacedTail(s: string)
    requires s != [] && SingleSpaced(s)
    ensures SingleSpaced(s[1..])
  {
    forall i | 0 <= i < |s[1..]| ensures IsSpace(s[1..][i]) ==> s[1..][i] == ' ' {
      assert s[1..][i] == s[i + 1];
    }
    forall i | 0 <= i < |s[1..]| - 1 ensures !(IsSpace(s[1..][i]) && IsSpace(s[1..][i + 1])) {
      assert s[1..][i] == s[i + 1] && s[1..][i + 1] == s[i + 2];
    }
  }

  /** A single space in front is the whole run `lstrip` removes. */
  lemma SingleSpaceStrip(s: string)
    requires s != [] && IsSpace(s[0]) && SingleSpaced(s)
    ensures LStrip(s) == s[1..]
  {
    if |s| > 1 {
      assert !IsSpace(s[1]);
      assert s[1..][0] == s[1];
    }
  }

  /** Text that neither starts nor ends with whitespace is its own strip. */
  lemma StripTrimmed(s: string)
    requires s != [] ==> !IsSpace(s[0]) && !IsSpace(s[|s| - 1])
    ensures Strip(s) == s
  {
  }

  /** Cleaning is idempotent: a cleaned query comes back unchanged. */
  lemma CleanQueryIdempotent(q: string)
    ensures CleanQuery(CleanQuery(q)) == CleanQuery(q)
  {
    var r := CleanQuery(q);
    CleanQueryClean(q);
    assert SQL_FENCE[..3] == FENCE;
    ReplaceNoFence(r, SQL_FENCE);
    assert FENCE[..3] == FENCE;
    ReplaceNoFence(r, FENCE);
    StripTrimmed(r);
    CollapseSingleSpaced(r);
  }

  // ----- One query -----

  /** The four queries used when the LLM gives nothing. */
  const FALLBACK_QUERIES: seq<string> := [
    "SELECT current_database(), current_user, inet_server_addr(), inet_server_port();",
    "SELECT COUNT(*) as total_employees FROM employee;",
    "SELECT d.dept_name, COUNT(de.employee_id) as count FROM department d LEFT JOIN department_employee de ON d.id = de.department_id GROUP BY d.dept_name;",
    "SELECT e.first_name, e.last_name, e.hire_date FROM employee e ORDER BY e.hire_date DESC LIMIT 5;"
  ]

  /**
   * `generate_query`: `reply` is the content of the LLM's message, None
   * when the request or its decoding failed; `_call_llm` strips it, and
   * `fallback` is the query `random.choice(FALLBACK_QUERIES)` picks.
   */
  function GenerateQuery(reply: Option<string>, fallback: string): string {
    if reply.Some? && Strip(reply.value) != [] then CleanQuery(Strip(reply.value))
    else fallback
  }

  /**
   * A non-empty reply is used, cleaned, and nothing else is; a missing or
   * blank one gives a fallback query, which is never empty. So the query
   * is empty only when a non-empty reply cleans to nothing.
   */
  lemma GenerateQueryCases(reply: Option<string>, fallback: string)
    requires fallback in FALLBACK_QUERIES
    ensures var q := GenerateQuery(reply, fallback);
      && (reply.Some? && Strip(reply.value) != [] ==> q == CleanQuery(Strip(reply.value)) && CleanQuery(q) == q)
      && (reply.None? || Strip(reply.value) == [] ==> q == fallback && q != [])
      && (q == [] ==> reply.Some? && Strip(reply.value) != [])
  {
    if reply.Some? && Strip(reply.value) != [] {
      CleanQueryIdempotent(Strip(reply.value));
    } else {
      assert forall k | 0 <= k < |FALLBACK_QUERIES| :: |FALLBACK_QUERIES[k]| > 0;
    }
  }

  // ----- The SSH command -----

  /** `sql_query.replace('"', '\\"').replace('$', '\\$')`. */
  function EscapeQuery(q: string): string {
    Replace(Replace(q, "\"", "\\\""), "$", "\\$")
  }

  /** How one character of the query is written inside the double quotes. */
  function EscapeChar(c: char): string {
    if c == '"' || c == '$' then ['\\', c] else [c]
  }

  /** The query written character by character. */
  function EscapeEach(q: string): string {
    if q == [] then [] else EscapeChar(q[0]) + EscapeEach(q[1..])
  }

  /** The two replacements escape each `"` and each `$` with a backslash and keep every other character. */
  lemma {:induction false} EscapeQueryEach(q: string)
    ensures EscapeQuery(q) == EscapeEach(q)
  {
    ReplaceOneChar(q, '"', "\\\"");
    ReplaceOneChar(Subst(q, '"', "\\\""), '$', "\\$");
    SubstTwice(q);
  }

  lemma {:induction false} SubstTwice(q: string)
    ensures Subst(Subst(q, '"', "\\\""), '$', "\\$") == EscapeEach(q)
    decreases |q|
  {
    if q != [] {
      var head := if q[0] == '"' then "\\\"" else [q[0]];
      assert Subst(q, '"', "\\\"") == head + Subst(q[1..], '"', "\\\"");
      SubstAppend(head, Subst(q[1..], '"', "\\\""), '$', "\\$");
      if q[0] == '"' {
        assert '$' !in "\\\"";
        SubstNoOccurrence("\\\"", '$', "\\$");
      } else {
        assert Subst([q[0]], '$', "\\$") == (if q[0] == '$' then "\\$" else [q[0]]) + Subst([], '$', "\\$");
      }
      SubstTwice(q[1..]);
    }
  }

  /** `generate_ssh_command`, escaping as `EscapeQueryEach` shows the two replacements do. */
  function GenerateSshCommand(q: string): string {
    SshCommand(PsqlCommand(EscapeEach(q)))
  }

  /** Inside double quotes an escaped character reads back as itself. */
  lemma EscapeCharReads(c: char)
    requires c != '\\'
    ensures Scan(DoubleQuoted, EscapeChar(c)) == Lexed(DoubleQuoted, [c])
  {
    if c == '"' || c == '$' {
      assert EscapeChar(c) == ['\\', c];
      assert ['\\', c][1..] == [c];
      ScanOne(EscapedInDouble, c);
    } else {
      ScanOne(DoubleQuoted, c);
    }
  }

  /** The remote shell reads the escaped query back to the query, as long as it holds no backslash. */
  lemma {:induction false} EscapeReadsBack(q: string)
    requires forall i | 0 <= i < |q| :: q[i] != '\\'
    ensures Scan(DoubleQuoted, EscapeEach(q)) == Lexed(DoubleQuoted, q)
    decreases |q|
  {
    if q != [] {
      EscapeCharReads(q[0]);
      EscapeReadsBack(q[1..]);
      ScanThen(DoubleQuoted, EscapeChar(q[0]), EscapeEach(q[1..]), DoubleQuoted, [q[0]], DoubleQuoted, q[1..]);
      assert [q[0]] + q[1..] == q;
    }
  }

  /** Escaping adds no single quote. */
  lemma {:induction false} EscapeInert(q: string)
    requires forall i | 0 <= i < |q| :: q[i] != '\''
    ensures Inert(SingleQuoted, EscapeEach(q))
    decreases |q|
  {
    if q != [] {
      EscapeInert(q[1..]);
      assert Inert(SingleQuoted, EscapeChar(q[0]));
      InertAppend(SingleQuoted, EscapeChar(q[0]), EscapeEach(q[1..]));
    }
  }

  /**
   * For a query with no single quote the local shell closes every quote
   * and hands ssh the psql command with the escaped query; only a single
   * quote in the query would end the quoted remote command early.
   */
  lemma SshCommandLocal(q: string)
    requires forall i | 0 <= i < |q| :: q[i] != '\''
    ensures Scan(Unquoted, GenerateSshCommand(q)) == Lexed(Unquoted, SSH_PREFIX + PsqlCommand(EscapeQuery(q)))
  {
    EscapeQueryEach(q);
    EscapeInert(q);
    PsqlCommandInert(EscapeEach(q));
    SshDelivered(PsqlCommand(EscapeEach(q)));
  }

  /** For a query with no backslash the remote shell hands psql the query itself. */
  lemma SshCommandRemote(q: string)
    requires forall i | 0 <= i < |q| :: q[i] != '\\'
    ensures Scan(Unquoted, PsqlCommand(EscapeQuery(q))) == Lexed(Unquoted, RemotePsql(q))
  {
    EscapeQueryEach(q);
    EscapeReadsBack(q);
    PsqlDelivered(EscapeQuery(q), q);
  }

  // ----- The activity sequence -----

  /** The ten tasks a work session samples from. */
  const TASKS: seq<string> := [
    "Check database connection and version information",
    "List all departments with employee counts",
    "Find recently hired employees in Engineering department",
    "Calculate average salary by department",
    "Find senior-level employees and their salaries",
    "Check database performance statistics",
    "List employees with their current titles",
    "Find highest paid employees",
    "Count employees by gender in each department",
    "Find employees hired in the last year"
  ]

  lemma TasksDistinct()
    ensures forall i, j | 0 <= i < j < |TASKS| :: TASKS[i] != TASKS[j]
  {
    assert TASKS[5][0] != TASKS[9][0];
  }

  const START_MESSAGE: string :=
    "[JOHN_SCOTT_LLM] Senior Developer" + " starting LLM-powered work" + " session at $(date)"
  const END_MESSAGE: string :=
    "[JOHN_SCOTT_LLM] LLM-powered work" + " session cycle completed at $(date)"

  /** An entry of the activity list: the two echo messages and the queries between them. */
  datatype Activity =
    | Echo(command: string, delayBefore: int, delayAfter: int)
    | Query(task: string, sql: string, command: string, delayBefore: int, delayAfter: int)

  const START_ACTIVITY: Activity := Echo(EchoCommand(START_MESSAGE), 5000, 10000)
  const END_ACTIVITY: Activity := Echo(EchoCommand(END_MESSAGE), 5000, 60000)

  /**
   * What the session decides for one sampled work item: its name, the LLM's
   * reply, the fallback `random.choice` would pick and the
   * `random.randint(20000, 35000)` delay.
   */
  datatype Pick = Pick(task: string, reply: Option<string>, fallback: string, delayAfter: int)

  /** The delay `random.randint(20000, 35000)` can draw. */
  predicate DelayInRange(p: Pick) {
    20000 <= p.delayAfter <= 35000
  }

  /** A task of the list, a fallback of the list and a delay in range. */
  predicate ValidPick(p: Pick) {
    p.task in TASKS && p.fallback in FALLBACK_QUERIES && DelayInRange(p)
  }

  /**
   * `random.sample(tasks, min(num_queries, len(tasks)))`: that many tasks
   * at distinct positions, so (`TasksDistinct`) distinct tasks.
   */
  predicate ValidPicks(picks: seq<Pick>, num: int) {
    && num >= 0
    && |picks| == Min(num, |TASKS|)
    && (forall i | 0 <= i < |picks| :: ValidPick(picks[i]))
    && (forall i, j | 0 <= i < j < |picks| :: picks[i].task != picks[j].task)
  }

  /** The activity for one task, or none when its query came back empty. */
  function QueryActivity(p: Pick): Option<Activity> {
    var q := GenerateQuery(p.reply, p.fallback);
    if q == [] then None else Some(Query(p.task, q, GenerateSshCommand(q), 5000, p.delayAfter))
  }

  /** The activities `gen` gives for the picks, in order, skipping the picks it gives none for. */
  function Collected(picks: seq<Pick>, gen: Pick -> Option<Activity>): seq<Activity>
    decreases |picks|
  {
    if picks == [] then []
    else
      var a := gen(picks[|picks| - 1]);
      Collected(picks[..|picks| - 1], gen) + if a.Some? then [a.value] else []
  }

  /** The query activities of the picks, in order. */
  function QueryActivities(picks: seq<Pick>): seq<Activity> {
    Collected(picks, QueryActivity)
  }

  /** A query activity made for `p`: its task, a non-empty query, the SSH command for it and the delays. */
  predicate MadeFor(p: Pick, a: Activity) {
    && a.Query? && a.task == p.task && a.sql != [] && a.command == GenerateSshCommand(a.sql)
    && a.delayBefore == 5000 && a.delayAfter == p.delayAfter
  }

  lemma QueryActivityMadeFor(p: Pick)
    ensures QueryActivity(p).Some? ==> MadeFor(p, QueryActivity(p).value)
  {
  }

  /** `generate_activity_sequence` once the work items are sampled. */
  function ActivitySequence(picks: seq<Pick>): seq<Activity> {
    [START_ACTIVITY] + QueryActivities(picks) + [END_ACTIVITY]
  }

  /** The work-item names of some picks. */
  function TaskSet(picks: seq<Pick>): set<string> {
    set i | 0 <= i < |picks| :: picks[i].task
  }

  /**
   * Every query activity has a non-empty query, the SSH command for that
   * query, a 5000 ms delay before and a 20000 to 35000 ms one after; there
   * are at most as many as picks, and no task appears twice.
   */
  lemma QueryActivitiesFacts(picks: seq<Pick>)
    requires forall i | 0 <= i < |picks| :: DelayInRange(picks[i])
    requires forall i, j | 0 <= i < j < |picks| :: picks[i].task != picks[j].task
    ensures var qs := QueryActivities(picks);
      && |qs| <= |picks|
      && (forall i | 0 <= i < |qs| ::
            && qs[i].Query? && qs[i].sql != [] && qs[i].command == GenerateSshCommand(qs[i].sql)
            && qs[i].delayBefore == 5000 && 20000 <= qs[i].delayAfter <= 35000
            && qs[i].task in TaskSet(picks))
      && (forall i, j | 0 <= i < j < |qs| :: qs[i].task != qs[j].task)
  {
    forall p ensures QueryActivity(p).Some? ==> MadeFor(p, QueryActivity(p).value) {
      QueryActivityMadeFor(p);
    }
    CollectedFacts(picks, QueryActivity);
  }

  /** `QueryActivitiesFacts` for any `gen` that makes only activities `MadeFor` their picks. */
  lemma {:induction false} CollectedFacts(picks: seq<Pick>, gen: Pick -> Option<Activity>)
    requires forall i | 0 <= i < |picks| :: DelayInRange(picks[i])
    requires forall i, j | 0 <= i < j < |picks| :: picks[i].task != picks[j].task
    requires forall p :: gen(p).Some? ==> MadeFor(p, gen(p).value)
    ensures var qs := Collected(picks, gen);
      && |qs| <= |picks|
      && (forall i | 0 <= i < |qs| ::
            && qs[i].Query? && qs[i].sql != [] && qs[i].command == GenerateSshCommand(qs[i].sql)
            && qs[i].delayBefore == 5000 && 20000 <= qs[i].delayAfter <= 35000
            && qs[i].task in TaskSet(picks))
      && (forall i, j | 0 <= i < j < |qs| :: qs[i].task != qs[j].task)
    decreases |picks|
  {
    if picks != [] {
      var init := picks[..|picks| - 1];
      var last := picks[|picks| - 1];
      assert forall i | 0 <= i < |init| :: init[i] == picks[i];
      CollectedFacts(init, gen);
      assert TaskSet(init) <= TaskSet(picks) by {
        forall t | t in TaskSet(init) ensures t in TaskSet(picks) {
          var i :| 0 <= i < |init| && t == init[i].task;
          assert picks[i] == init[i];
        }
      }
      var a := gen(last);
      if a.Some? {
        assert MadeFor(last, a.value);
        assert last.task !in TaskSet(init);
        assert last.task in TaskSet(picks);
      }
    }
  }

  /** When no reply cleans to nothing, every picked task gets its query activity, in order. */
  lemma QueryPerPick(picks: seq<Pick>)
    requires forall i | 0 <= i < |picks| :: QueryActivity(picks[i]).Some?
    ensures |QueryActivities(picks)| == |picks|
    ensures forall i | 0 <= i < |picks| :: QueryActivities(picks)[i] == QueryActivity(picks[i]).value
  {
    CollectedEach(picks, QueryActivity);
  }

  lemma {:induction false} CollectedEach(picks: seq<Pick>, gen: Pick -> Option<Activity>)
    requires forall i | 0 <= i < |picks| :: gen(picks[i]).Some?
    ensures |Collected(picks, gen)| == |picks|
    ensures forall i | 0 <= i < |picks| :: Collected(picks, gen)[i] == gen(picks[i]).value
    decreases |picks|
  {
    if picks != [] {
      var init := picks[..|picks| - 1];
      assert forall i | 0 <= i < |init| :: init[i] == picks[i];
      CollectedEach(init, gen);
    }
  }

  /**
   * The sequence opens with the start echo and closes with the end echo;
   * everything between them is a query activity.
   */
  lemma ActivitySequenceShape(picks: seq<Pick>, num: int)
    requires ValidPicks(picks, num)
    ensures var acts := ActivitySequence(picks);
      && 2 <= |acts| <= Min(num, |TASKS|) + 2
      && acts[0] == START_ACTIVITY && acts[|acts| - 1] == END_ACTIVITY
      && (forall i | 0 < i < |acts| - 1 :: acts[i].Query?)
  {
    QueryActivitiesFacts(picks);
  }

  /** Both echo messages reach the remote side whole: their commands close every quote. */
  lemma EchoActivitiesDelivered()
    ensures Scan(Unquoted, START_ACTIVITY.command) == Lexed(Unquoted, SSH_PREFIX + RemoteEcho(START_MESSAGE))
    ensures Scan(Unquoted, END_ACTIVITY.command) == Lexed(Unquoted, SSH_PREFIX + RemoteEcho(END_MESSAGE))
  {
    StartMessagePlain();
    EndMessagePlain();
    EchoDelivered(START_MESSAGE);
    EchoDelivered(END_MESSAGE);
  }

  lemma StartMessagePlain()
    ensures Plain(START_MESSAGE)
  {
    assert Plain("[JOHN_SCOTT_LLM] Senior Developer");
    assert Plain(" starting LLM-powered work");
    assert Plain(" session at $(date)");
    InertAppend(Unquoted, "[JOHN_SCOTT_LLM] Senior Developer", " starting LLM-powered work");
    InertAppend(Unquoted, "[JOHN_SCOTT_LLM] Senior Developer" + " starting LLM-powered work", " session at $(date)");
  }

  lemma EndMessagePlain()
    ensures Plain(END_MESSAGE)
  {
    assert Plain("[JOHN_SCOTT_LLM] LLM-powered work");
    assert Plain(" session cycle completed at $(date)");
    InertAppend(Unquoted, "[JOHN_SCOTT_LLM] LLM-powered work", " session cycle completed at $(date)");
  }

  /**
   * `generate_activity_sequence(num_queries)`: `random.sample` raises for
   * a negative count, and otherwise the loop appends one query activity
   * per task whose query is non-empty between the two echoes.
   */
  method GenerateActivitySequence(num: int, picks: seq<Pick>) returns (r: Option<seq<Activity>>)
    requires num >= 0 ==> ValidPicks(picks, num)
    ensures r.None? <==> num < 0
    ensures r.Some? ==> r.value == ActivitySequence(picks)
  {
    if num < 0 {
      return None;
    }
    var activities := AppendQueryActivities([START_ACTIVITY], picks);
    activities := activities + [END_ACTIVITY];
    return Some(activities);
  }

  /** The loop over the sampled tasks, appending to the activities so far. */
  method AppendQueryActivities(start: seq<Activity>, picks: seq<Pick>) returns (activities: seq<Activity>)
    ensures activities == start + QueryActivities(picks)
  {
    activities := start;
    var i := 0;
    while i < |picks|
      invariant 0 <= i <= |picks|
      invariant activities == start + QueryActivities(picks[..i])
    {
      assert picks[..i + 1] == picks[..i] + [picks[i]];
      activities := AddQueryActivity(start, picks[..i], activities, picks[i]);
      i := i + 1;
    }
    assert picks[..i] == picks;
  }

  /** One pass of the loop: the query of one pick, and its activity when the query is not empty. */
  method AddQueryActivity(ghost start: seq<Activity>, ghost done: seq<Pick>, activities: seq<Activity>, p: Pick)
    returns (r: seq<Activity>)
    requires activities == start + QueryActivities(done)
    ensures r == start + QueryActivities(done + [p])
  {
    assert (done + [p])[..|done|] == done;
    r := activities;
    var query := GenerateQuery(p.reply, p.fallback);
    if query != [] {
      var sshCmd := GenerateSshCommand(query);
      r := r + [Query(p.task, query, sshCmd, 5000, p.delayAfter)];
    }
  }

  /**
   * `generate_timeline_json`: the default five-task sequence, one event per
   * activity with its command and delays and no arguments, looping.
   * Writing the file is left out; the timeline is returned.
   */
  method GenerateTimelineJson(picks: seq<Pick>) returns (t: Timeline)
    requires ValidPicks(picks, 5)
    ensures var acts := ActivitySequence(picks);
      && t == BashTimeline(EventsOf(t), true)
      && |EventsOf(t)| == |acts|
      && forall i | 0 <= i < |acts| ::
           EventsOf(t)[i] == TimelineEvent(acts[i].command, [], acts[i].delayBefore, acts[i].delayAfter)
  {
    var activities := GenerateActivitySequence(5, picks);
    var timelineEvents := ActivityEvents(activities.value);
    t := BashTimeline(timelineEvents, true);
  }

  /** The loop over the activities: one event each, with its command and delays and no arguments. */
  method ActivityEvents(acts: seq<Activity>) returns (timelineEvents: seq<TimelineEvent>)
    ensures |timelineEvents| == |acts|
    ensures forall i | 0 <= i < |acts| ::
      timelineEvents[i] == TimelineEvent(acts[i].command, [], acts[i].delayBefore, acts[i].delayAfter)
  {
    timelineEvents := [];
    var i := 0;
    while i < |acts|
      invariant 0 <= i <= |acts|
      invariant |timelineEvents| == i
      invariant forall k | 0 <= k < i ::
        timelineEvents[k] == TimelineEvent(acts[k].command, [], acts[k].delayBefore, acts[k].delayAfter)
    {
      var activity := acts[i];
      timelineEvents := timelineEvents + [TimelineEvent(activity.command, [], activity.delayBefore, activity.delayAfter)];
      i := i + 1;
    }
  }
}
