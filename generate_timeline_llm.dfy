/**
 * The timeline builder of the John Scott NPC: it wraps each SQL query in
 * an SSH command that runs psql on the compromised host, escaping the
 * query so that the local shell hands it through the single-quoted remote
 * command, and lays the commands out between an intro and a closing echo
 * as a GHOSTS timeline.
 */
module GenerateTimelineLlm {
  import opened Text
  import opened Ghosts

  // ----- Escaping a query -----

  /** What each single quote becomes: close the quotes, a double-quoted `'`, reopen them. */
  const SQ_GROUP: string := "'\"'\"'"

  /** What each `$$` becomes: both dollars escaped with a backslash. */
  const DOLLAR_ESCAPE: string := "\\$\\$"

  /** The query with trailing semicolons removed and then stripped. */
  function Trimmed(q: string): string {
    Strip(RStripChar(q, ';'))
  }

  /** Every `$$`, left to right, escaped. */
  function DollarEscaped(t: string): string {
    Replace(t, "$$", DOLLAR_ESCAPE)
  }

  /** `_escape_query_for_ssh`: trimmed, then each `'` regrouped, then each `$$` escaped. */
  function EscapeQueryForSsh(q: string): string {
    Replace(Replace(Trimmed(q), "'", SQ_GROUP), "$$", DOLLAR_ESCAPE)
  }

  /** A character other than `$` in front is kept, and the search goes on after it. */
  lemma DollarCons(c: char, x: string)
    requires c != '$'
    ensures DollarEscaped([c] + x) == [c] + DollarEscaped(x)
  {
    if |[c] + x| >= 2 {
      assert ([c] + x)[..2][0] == c;
    }
    assert ([c] + x)[1..] == x;
  }

  /** Text without a `$` in front passes unchanged, and the search goes on after it. */
  lemma {:induction false} DollarPrefix(p: string, x: string)
    requires forall i | 0 <= i < |p| :: p[i] != '$'
    ensures DollarEscaped(p + x) == p + DollarEscaped(x)
    decreases |p|
  {
    if p == [] {
      assert p + x == x;
    } else {
      var q := p[1..];
      calc {
        DollarEscaped(p + x);
        { assert p + x == [p[0]] + (q + x); }
        DollarEscaped([p[0]] + (q + x));
        { DollarCons(p[0], q + x); }
        [p[0]] + DollarEscaped(q + x);
        { DollarPrefix(q, x); }
        [p[0]] + (q + DollarEscaped(x));
        { assert p == [p[0]] + q; }
        p + DollarEscaped(x);
      }
    }
  }

  /** A lone `$` in front is kept. */
  lemma DollarLone(y: string)
    requires y != [] && y[0] != '$'
    ensures DollarEscaped(['$'] + y) == ['$'] + DollarEscaped(y)
  {
    assert (['$'] + y)[..2][1] == y[0];
    assert (['$'] + y)[1..] == y;
  }

  /** A `$$` in front is escaped, and the search goes on after it. */
  lemma DollarPair(x: string)
    ensures DollarEscaped("$$" + x) == DOLLAR_ESCAPE + DollarEscaped(x)
  {
    assert ("$$" + x)[..2] == "$$";
    assert ("$$" + x)[2..] == x;
  }

  lemma SqGroupNoDollar()
    ensures forall i | 0 <= i < |SQ_GROUP| :: SQ_GROUP[i] != '$'
    ensures SQ_GROUP[0] == '\''
  {
  }

  lemma DollarEscapeNoQuote()
    ensures '\'' !in DOLLAR_ESCAPE
  {
  }

  /**
   * Regrouping single quotes and escaping `$$` commute, because neither
   * replacement writes what the other looks for: the escaped query is the
   * dollar-escaped query with its single quotes regrouped.
   */
  lemma {:induction false} EscapeOrder(t: string)
    ensures DollarEscaped(Subst(t, '\'', SQ_GROUP)) == Subst(DollarEscaped(t), '\'', SQ_GROUP)
    decreases |t|
  {
    SqGroupNoDollar();
    if t == [] {
    } else if |t| == 1 {
      assert DollarEscaped(t) == t;
      SubstAppend([t[0]], [], '\'', SQ_GROUP);
      if t[0] == '\'' {
        assert Subst(t, '\'', SQ_GROUP) == SQ_GROUP + [];
        DollarPrefix(SQ_GROUP, []);
      }
    } else if t[0] == '$' && t[1] == '$' {
      var rest := t[2..];
      assert t == "$$" + rest;
      SubstAppend("$$", rest, '\'', SQ_GROUP);
      assert Subst("$$", '\'', SQ_GROUP) == "$$";
      DollarPair(Subst(rest, '\'', SQ_GROUP));
      DollarPair(rest);
      DollarEscapeNoQuote();
      SubstAppend(DOLLAR_ESCAPE, DollarEscaped(rest), '\'', SQ_GROUP);
      SubstNoOccurrence(DOLLAR_ESCAPE, '\'', SQ_GROUP);
      EscapeOrder(rest);
    } else {
      EscapeOrder(t[1..]);
      EscapeOrderStep(t);
    }
  }

  /** The step of `EscapeOrder` for a first character that does not start a `$$`. */
  lemma EscapeOrderStep(t: string)
    requires |t| >= 2 && !(t[0] == '$' && t[1] == '$')
    requires DollarEscaped(Subst(t[1..], '\'', SQ_GROUP)) == Subst(DollarEscaped(t[1..]), '\'', SQ_GROUP)
    ensures DollarEscaped(Subst(t, '\'', SQ_GROUP)) == Subst(DollarEscaped(t), '\'', SQ_GROUP)
  {
    var c := t[0];
    var rest := t[1..];
    var h := if c == '\'' then SQ_GROUP else [c];
    var y := Subst(rest, '\'', SQ_GROUP);
    var d := DollarEscaped(rest);
    if c == '$' {
      RegroupedHead(rest);
    }
    calc {
      DollarEscaped(Subst(t, '\'', SQ_GROUP));
      { assert Subst(t, '\'', SQ_GROUP) == h + y; }
      DollarEscaped(h + y);
      { StepHead(c, y); }
      h + DollarEscaped(y);
      h + Subst(d, '\'', SQ_GROUP);
      { StepRegrouped(c, d); }
      Subst([c] + d, '\'', SQ_GROUP);
      { StepDollar(t); }
      Subst(DollarEscaped(t), '\'', SQ_GROUP);
    }
  }

  /** Escaping after the regrouped first character of a text that does not start a `$$`. */
  lemma StepHead(c: char, y: string)
    requires c == '$' ==> y != [] && y[0] != '$'
    ensures DollarEscaped((if c == '\'' then SQ_GROUP else [c]) + y) == (if c == '\'' then SQ_GROUP else [c]) + DollarEscaped(y)
  {
    if c == '\'' {
      SqGroupNoDollar();
      DollarPrefix(SQ_GROUP, y);
    } else if c == '$' {
      DollarLone(y);
    } else {
      DollarCons(c, y);
    }
  }

  /** Escaping the dollars of a text that does not start a `$$` keeps its first character. */
  lemma StepDollar(t: string)
    requires |t| >= 2 && !(t[0] == '$' && t[1] == '$')
    ensures DollarEscaped(t) == [t[0]] + DollarEscaped(t[1..])
  {
    assert t == [t[0]] + t[1..];
    if t[0] == '$' {
      DollarLone(t[1..]);
    } else {
      DollarCons(t[0], t[1..]);
    }
  }

  lemma StepRegrouped(c: char, d: string)
    ensures Subst([c] + d, '\'', SQ_GROUP) == (if c == '\'' then SQ_GROUP else [c]) + Subst(d, '\'', SQ_GROUP)
  {
    assert ([c] + d)[1..] == d;
  }

  /** Regrouping does not put a `$` in front of text that does not start with one. */
  lemma RegroupedHead(x: string)
    requires x != [] && x[0] != '$'
    ensures Subst(x, '\'', SQ_GROUP) != [] && Subst(x, '\'', SQ_GROUP)[0] != '$'
  {
    assert Subst(x, '\'', SQ_GROUP) == (if x[0] == '\'' then SQ_GROUP else [x[0]]) + Subst(x[1..], '\'', SQ_GROUP);
    SqGroupNoDollar();
  }

  // ----- What the shells make of the command -----

  /** Inside single quotes the regrouped quote reads back as one single quote. */
  lemma SqGroupReads()
    ensures Scan(SingleQuoted, SQ_GROUP) == Lexed(SingleQuoted, "'")
  {
    ScanOne(SingleQuoted, '\'');
    ScanOne(Unquoted, '"');
    ScanOne(DoubleQuoted, '\'');
    ScanOne(DoubleQuoted, '"');
    ScanOne(Unquoted, '\'');
    ScanThen(SingleQuoted, "'", "\"", Unquoted, [], DoubleQuoted, []);
    ScanThen(SingleQuoted, "'\"", "'", DoubleQuoted, [], DoubleQuoted, "'");
    ScanThen(SingleQuoted, "'\"'", "\"", DoubleQuoted, "'", Unquoted, []);
    ScanThen(SingleQuoted, "'\"'\"", "'", Unquoted, "'", SingleQuoted, []);
  }

  /** Inside single quotes any text with its quotes regrouped reads back as the text. */
  lemma {:induction false} RegroupedReadsBack(x: string)
    ensures Scan(SingleQuoted, Subst(x, '\'', SQ_GROUP)) == Lexed(SingleQuoted, x)
    decreases |x|
  {
    if x != [] {
      var head := if x[0] == '\'' then SQ_GROUP else [x[0]];
      assert Subst(x, '\'', SQ_GROUP) == head + Subst(x[1..], '\'', SQ_GROUP);
      if x[0] == '\'' {
        SqGroupReads();
      } else {
        ScanOne(SingleQuoted, x[0]);
      }
      RegroupedReadsBack(x[1..]);
      ScanThen(SingleQuoted, head, Subst(x[1..], '\'', SQ_GROUP), SingleQuoted, [x[0]], SingleQuoted, x[1..]);
      assert [x[0]] + x[1..] == x;
    }
  }

  lemma InertNoQuote(s: string)
    requires Inert(SingleQuoted, s)
    ensures '\'' !in s
  {
    forall i | 0 <= i < |s| ensures s[i] != '\'' {
      assert InertChar(SingleQuoted, s[i]);
    }
  }

  /** Regrouping the quotes of the psql command regroups those of its argument only. */
  lemma PsqlRegrouped(arg: string)
    ensures Subst(PsqlCommand(arg), '\'', SQ_GROUP) == PsqlCommand(Subst(arg, '\'', SQ_GROUP))
  {
    PsqlPartsInert();
    InertNoQuote(PSQL_HEAD);
    InertNoQuote(PSQL_TAIL);
    SubstAppend(PSQL_HEAD + arg, PSQL_TAIL, '\'', SQ_GROUP);
    SubstAppend(PSQL_HEAD, arg, '\'', SQ_GROUP);
    SubstNoOccurrence(PSQL_HEAD, '\'', SQ_GROUP);
    SubstNoOccurrence(PSQL_TAIL, '\'', SQ_GROUP);
  }

  /** `_create_ssh_command`: the escaped query as the `-c` argument of psql, run over ssh. */
  function CreateSshCommand(q: string): string {
    SshCommand(PsqlCommand(EscapeQueryForSsh(q)))
  }

  /**
   * Whatever the query, the local shell closes every quote and hands ssh
   * the psql command with the trimmed, dollar-escaped query: each single
   * quote of the query reaches the remote side as a single quote.
   */
  lemma CreateSshCommandLocal(q: string)
    ensures Scan(Unquoted, CreateSshCommand(q)) == Lexed(Unquoted, SSH_PREFIX + PsqlCommand(DollarEscaped(Trimmed(q))))
  {
    var t := Trimmed(q);
    var y := DollarEscaped(t);
    ReplaceOneChar(t, '\'', SQ_GROUP);
    assert Replace(t, "'", SQ_GROUP) == Subst(t, '\'', SQ_GROUP);
    EscapeOrder(t);
    assert EscapeQueryForSsh(q) == Subst(y, '\'', SQ_GROUP);
    PsqlRegrouped(y);
    RegroupedReadsBack(PsqlCommand(y));
    SshCommandReads(Subst(PsqlCommand(y), '\'', SQ_GROUP), PsqlCommand(y));
  }

  /** Inside double quotes the escaped `$$` reads back as `$$`. */
  lemma DollarEscapeReads()
    ensures Scan(DoubleQuoted, DOLLAR_ESCAPE) == Lexed(DoubleQuoted, "$$")
  {
    ScanOne(DoubleQuoted, '\\');
    ScanOne(EscapedInDouble, '$');
    ScanThen(DoubleQuoted, "\\", "$", EscapedInDouble, [], DoubleQuoted, "$");
    ScanThen(DoubleQuoted, "\\$", "\\$", DoubleQuoted, "$", DoubleQuoted, "$");
  }

  /** Inside double quotes the dollar-escaped text reads back as the text, when it holds no `"` and no backslash. */
  lemma {:induction false} DollarReadsBack(t: string)
    requires forall i | 0 <= i < |t| :: t[i] != '"' && t[i] != '\\'
    ensures Scan(DoubleQuoted, DollarEscaped(t)) == Lexed(DoubleQuoted, t)
    decreases |t|
  {
    if |t| < 2 {
      assert DollarEscaped(t) == t;
      ScanInert(DoubleQuoted, t);
    } else if t[0] == '$' && t[1] == '$' {
      var rest := t[2..];
      assert t == "$$" + rest;
      DollarPair(rest);
      DollarEscapeReads();
      DollarReadsBack(rest);
      ScanThen(DoubleQuoted, DOLLAR_ESCAPE, DollarEscaped(rest), DoubleQuoted, "$$", DoubleQuoted, rest);
    } else {
      var rest := t[1..];
      assert t == [t[0]] + rest;
      if t[0] == '$' {
        DollarLone(rest);
      } else {
        DollarCons(t[0], rest);
      }
      ScanOne(DoubleQuoted, t[0]);
      DollarReadsBack(rest);
      ScanThen(DoubleQuoted, [t[0]], DollarEscaped(rest), DoubleQuoted, [t[0]], DoubleQuoted, rest);
    }
  }

  /**
   * The remote shell hands psql the trimmed query itself, as long as it
   * holds no double quote (which would end the `-c` argument) and no
   * backslash.
   */
  lemma CreateSshCommandRemote(q: string)
    requires forall i | 0 <= i < |Trimmed(q)| :: Trimmed(q)[i] != '"' && Trimmed(q)[i] != '\\'
    ensures Scan(Unquoted, PsqlCommand(DollarEscaped(Trimmed(q)))) == Lexed(Unquoted, RemotePsql(Trimmed(q)))
  {
    DollarReadsBack(Trimmed(q));
    PsqlDelivered(DollarEscaped(Trimmed(q)), Trimmed(q));
  }

  // ----- The intro and closing messages -----

  /** The intro message, naming the role. */
  function IntroMessage(role: string): string {
    "[JOHN_SCOTT] Senior Developer (" + role + ") starting LLM-driven work" + " session at $(date)"
  }

  /** The closing message. */
  const CLOSING_MESSAGE: string := "[JOHN_SCOTT] LLM-driven work" + " session completed at $(date)"

  /** The intro command as the source builds it: the echo command followed by one more `'`. */
  function IntroCommandAsWritten(role: string): string {
    EchoCommand(IntroMessage(role)) + "'"
  }

  /** The intro command without the extra quote: the same echo command the closing event uses. */
  function IntroCommand(role: string): string {
    EchoCommand(IntroMessage(role))
  }

  /** A role with no quote and no backslash gives a plain intro message. */
  lemma IntroMessagePlain(role: string)
    requires Plain(role)
    ensures Plain(IntroMessage(role))
  {
    var head, tail := "[JOHN_SCOTT] Senior Developer (", ") starting LLM-driven work";
    var date := " session at $(date)";
    assert Plain(head) && Plain(tail) && Plain(date);
    InertAppend(Unquoted, head, role);
    InertAppend(Unquoted, head + role, tail);
    InertAppend(Unquoted, head + role + tail, date);
  }

  lemma ClosingMessagePlain()
    ensures Plain(CLOSING_MESSAGE)
  {
    assert Plain("[JOHN_SCOTT] LLM-driven work");
    assert Plain(" session completed at $(date)");
    InertAppend(Unquoted, "[JOHN_SCOTT] LLM-driven work", " session completed at $(date)");
  }

  /**
   * The intro command as written opens a single-quoted string it never
   * closes, so the shell stops at the end of the line inside quotes
   * instead of running the echo.
   */
  lemma IntroAsWrittenUnbalanced(role: string)
    requires Plain(role)
    ensures Scan(Unquoted, IntroCommandAsWritten(role)) == Lexed(SingleQuoted, SSH_PREFIX + RemoteEcho(IntroMessage(role)))
    ensures !Balanced(IntroCommandAsWritten(role))
  {
    IntroMessagePlain(role);
    EchoDelivered(IntroMessage(role));
    ScanOne(Unquoted, '\'');
    ScanThen(Unquoted, EchoCommand(IntroMessage(role)), "'", Unquoted, SSH_PREFIX + RemoteEcho(IntroMessage(role)), SingleQuoted, []);
  }

  /** The corrected intro command closes its quotes and runs echo on the message remotely. */
  lemma IntroDelivered(role: string)
    requires Plain(role)
    ensures Scan(Unquoted, IntroCommand(role)) == Lexed(Unquoted, SSH_PREFIX + RemoteEcho(IntroMessage(role)))
    ensures Scan(Unquoted, RemoteEcho(IntroMessage(role))) == Lexed(Unquoted, "echo " + IntroMessage(role))
  {
    IntroMessagePlain(role);
    EchoDelivered(IntroMessage(role));
  }

  /** The closing command closes its quotes and runs echo on the message remotely. */
  lemma ClosingDelivered()
    ensures Scan(Unquoted, EchoCommand(CLOSING_MESSAGE)) == Lexed(Unquoted, SSH_PREFIX + RemoteEcho(CLOSING_MESSAGE))
    ensures Scan(Unquoted, RemoteEcho(CLOSING_MESSAGE)) == Lexed(Unquoted, "echo " + CLOSING_MESSAGE)
  {
    ClosingMessagePlain();
    EchoDelivered(CLOSING_MESSAGE);
  }

  // ----- The events -----

  /** `_create_timeline_event`: the ssh command for the query, no arguments, the two delays. */
  function CreateTimelineEvent(q: string, delayBefore: int, delayAfter: int): TimelineEvent {
    TimelineEvent(CreateSshCommand(q), [], delayBefore, delayAfter)
  }

  /** The intro event as the source builds it, with the command of line 70 and its extra quote. */
  function IntroEvent(role: string): TimelineEvent {
    TimelineEvent(IntroCommandAsWritten(role), [], 2000, 5000)
  }

  /** The intro event with the corrected command. */
  function IntendedIntroEvent(role: string): TimelineEvent {
    TimelineEvent(IntroCommand(role), [], 2000, 5000)
  }

  const CLOSING_EVENT: TimelineEvent := TimelineEvent(EchoCommand(CLOSING_MESSAGE), [], 3000, 10000)

  /** The delay before query `i`: the base delay plus 0, 1 or 2 seconds, cycling. */
  function DelayBeforeAt(delayBefore: int, i: nat): int {
    delayBefore + (i % 3) * 1000
  }

  /** The delay after query `i`: the base delay plus 0, 2, 4 or 6 seconds, cycling. */
  function DelayAfterAt(delayAfter: int, i: nat): int {
    delayAfter + (i % 4) * 2000
  }

  /** The event for the query at position `i`. */
  function QueryEventAt(q: string, i: nat, delayBefore: int, delayAfter: int): TimelineEvent {
    CreateTimelineEvent(q, DelayBeforeAt(delayBefore, i), DelayAfterAt(delayAfter, i))
  }

  /** One event per query, in order. */
  function QueryEvents(queries: seq<string>, delayBefore: int, delayAfter: int): seq<TimelineEvent> {
    seq(|queries|, i requires 0 <= i < |queries| => QueryEventAt(queries[i], i, delayBefore, delayAfter))
  }

  /** The events of the timeline: the intro, the queries, the closing message. */
  function Events(queries: seq<string>, delayBefore: int, delayAfter: int, role: string): seq<TimelineEvent> {
    [IntroEvent(role)] + QueryEvents(queries, delayBefore, delayAfter) + [CLOSING_EVENT]
  }

  /** The events of the timeline with the corrected intro command. */
  function EventsIntended(queries: seq<string>, delayBefore: int, delayAfter: int, role: string): seq<TimelineEvent> {
    [IntendedIntroEvent(role)] + QueryEvents(queries, delayBefore, delayAfter) + [CLOSING_EVENT]
  }

  /** The corrected timeline differs from the source's only in the intro command. */
  lemma EventsDifferInIntro(queries: seq<string>, delayBefore: int, delayAfter: int, role: string)
    ensures var e, f := Events(queries, delayBefore, delayAfter, role), EventsIntended(queries, delayBefore, delayAfter, role);
      |e| == |f| && e[0].command == f[0].command + "'"
      && e[0].commandArgs == f[0].commandArgs && e[0].delayBefore == f[0].delayBefore && e[0].delayAfter == f[0].delayAfter
      && forall i | 0 < i < |e| :: e[i] == f[i]
  {
    var q := QueryEvents(queries, delayBefore, delayAfter);
    Framed(IntroEvent(role), q, CLOSING_EVENT);
    Framed(IntendedIntroEvent(role), q, CLOSING_EVENT);
  }

  /** `len(queries) + 2` events: the intro first, each query in order, the closing event last. */
  lemma EventsShape(queries: seq<string>, delayBefore: int, delayAfter: int, role: string)
    ensures var e := Events(queries, delayBefore, delayAfter, role);
      |e| == |queries| + 2 && e[0] == IntroEvent(role) && e[|e| - 1] == CLOSING_EVENT
      && forall i | 0 <= i < |queries| :: e[i + 1].command == CreateSshCommand(queries[i]) && e[i + 1].commandArgs == []
  {
    var q := QueryEvents(queries, delayBefore, delayAfter);
    Framed(IntroEvent(role), q, CLOSING_EVENT);
    forall i | 0 <= i < |queries| ensures q[i].command == CreateSshCommand(queries[i]) && q[i].commandArgs == [] {
      assert q[i] == QueryEventAt(queries[i], i, delayBefore, delayAfter);
    }
  }

  /** A sequence between a first and a last element. */
  lemma Framed<T>(first: T, middle: seq<T>, last: T)
    ensures var e := [first] + middle + [last];
      |e| == |middle| + 2 && e[0] == first && e[|e| - 1] == last
      && forall i | 0 <= i < |middle| :: e[i + 1] == middle[i]
  {
  }

  /** The delays of query `i` are at most 2 and 6 seconds above the base delays and repeat every 12 queries. */
  lemma QueryDelays(queries: seq<string>, delayBefore: int, delayAfter: int)
    ensures var e := QueryEvents(queries, delayBefore, delayAfter);
      forall i | 0 <= i < |e| ::
        delayBefore <= e[i].delayBefore <= delayBefore + 2000 && delayAfter <= e[i].delayAfter <= delayAfter + 6000
        && e[i].delayBefore == delayBefore + (i % 3) * 1000 && e[i].delayAfter == delayAfter + (i % 4) * 2000
    ensures var e := QueryEvents(queries, delayBefore, delayAfter);
      forall i | 0 <= i < |e| - 12 :: e[i + 12].delayBefore == e[i].delayBefore && e[i + 12].delayAfter == e[i].delayAfter
  {
    var e := QueryEvents(queries, delayBefore, delayAfter);
    forall i | 0 <= i < |e|
      ensures delayBefore <= e[i].delayBefore <= delayBefore + 2000 && delayAfter <= e[i].delayAfter <= delayAfter + 6000
      ensures e[i].delayBefore == delayBefore + (i % 3) * 1000 && e[i].delayAfter == delayAfter + (i % 4) * 2000
    {
      assert e[i] == QueryEventAt(queries[i], i, delayBefore, delayAfter);
    }
    forall i | 0 <= i < |e| - 12
      ensures e[i + 12].delayBefore == e[i].delayBefore && e[i + 12].delayAfter == e[i].delayAfter
    {
      assert (i + 12) % 3 == i % 3 && (i + 12) % 4 == i % 4;
    }
  }

  /**
   * With a role that holds no quote and no backslash, every command of the
   * timeline after the intro closes all its quotes, and the intro, built as
   * the source builds it, leaves a single quote open.
   */
  lemma EventsBalanced(queries: seq<string>, delayBefore: int, delayAfter: int, role: string)
    requires Plain(role)
    ensures var e := Events(queries, delayBefore, delayAfter, role);
      && !Balanced(e[0].command)
      && forall i | 0 < i < |e| :: Balanced(e[i].command)
  {
    var e := Events(queries, delayBefore, delayAfter, role);
    var q := QueryEvents(queries, delayBefore, delayAfter);
    Framed(IntroEvent(role), q, CLOSING_EVENT);
    IntroAsWrittenUnbalanced(role);
    forall i | 0 < i < |e| ensures Balanced(e[i].command) {
      QueryOrClosingBalanced(queries, delayBefore, delayAfter, e, q, i);
    }
  }

  /** With the corrected intro every command of the timeline closes all its quotes. */
  lemma EventsIntendedBalanced(queries: seq<string>, delayBefore: int, delayAfter: int, role: string)
    requires Plain(role)
    ensures var e := EventsIntended(queries, delayBefore, delayAfter, role);
      forall i | 0 <= i < |e| :: Balanced(e[i].command)
  {
    var e := EventsIntended(queries, delayBefore, delayAfter, role);
    var q := QueryEvents(queries, delayBefore, delayAfter);
    Framed(IntendedIntroEvent(role), q, CLOSING_EVENT);
    forall i | 0 <= i < |e| ensures Balanced(e[i].command) {
      if i == 0 {
        IntroDelivered(role);
      } else {
        QueryOrClosingBalanced(queries, delayBefore, delayAfter, e, q, i);
      }
    }
  }

  /** A query event or the closing event closes all its quotes. */
  lemma QueryOrClosingBalanced(queries: seq<string>, delayBefore: int, delayAfter: int,
                               e: seq<TimelineEvent>, q: seq<TimelineEvent>, i: nat)
    requires q == QueryEvents(queries, delayBefore, delayAfter)
    requires |e| == |q| + 2 && e[|e| - 1] == CLOSING_EVENT && forall k | 0 <= k < |q| :: e[k + 1] == q[k]
    requires 0 < i < |e|
    ensures Balanced(e[i].command)
  {
    if i == |e| - 1 {
      ClosingDelivered();
    } else {
      assert e[i] == q[i - 1] == QueryEventAt(queries[i - 1], i - 1, delayBefore, delayAfter);
      CreateSshCommandLocal(queries[i - 1]);
    }
  }

  // ----- The generator -----

  /** Holds the queries, the base delays and the role the timeline is built from. */
  class TimelineGenerator {
    const queries: seq<string>
    const delayBefore: int
    const delayAfter: int
    const role: string

    constructor(queries: seq<string>, delayBefore: int := 5000, delayAfter: int := 10000,
                role: string := "senior_developer_role")
      ensures this.queries == queries && this.delayBefore == delayBefore
      ensures this.delayAfter == delayAfter && this.role == role
    {
      this.queries := queries;
      this.delayBefore := delayBefore;
      this.delayAfter := delayAfter;
      this.role := role;
    }

    /**
     * `generate_timeline`: the intro event, one event per query with the
     * cycling delays, the closing event, all in one Bash handler whose Loop
     * flag is `loop`.
     */
    method GenerateTimeline(loop: bool) returns (t: Timeline)
      ensures t == BashTimeline(Events(queries, delayBefore, delayAfter, role), loop)
      ensures |t.handlers| == 1 && t.handlers[0].loop == loop
      ensures EventsOf(t) == Events(queries, delayBefore, delayAfter, role)
    {
      var events := [IntroEvent(role)];
      var i := 0;
      while i < |queries|
        invariant 0 <= i <= |queries|
        invariant events == [IntroEvent(role)] + QueryEvents(queries[..i], delayBefore, delayAfter)
      {
        events := AddQueryEvent(queries, i, events);
        i := i + 1;
      }
      assert queries[..i] == queries;
      events := events + [CLOSING_EVENT];
      t := BashTimeline(events, loop);
    }

    /** One step of the loop: the event for query `i` appended. */
    method AddQueryEvent(qs: seq<string>, i: nat, events: seq<TimelineEvent>) returns (r: seq<TimelineEvent>)
      requires i < |qs|
      requires events == [IntroEvent(role)] + QueryEvents(qs[..i], delayBefore, delayAfter)
      ensures r == [IntroEvent(role)] + QueryEvents(qs[..i + 1], delayBefore, delayAfter)
    {
      var db := delayBefore + (i % 3) * 1000;
      var da := delayAfter + (i % 4) * 2000;
      r := events + [CreateTimelineEvent(qs[i], db, da)];
      QueryEventsSnoc(qs, i, delayBefore, delayAfter);
    }
  }

  /** The events of one more query: those of the shorter prefix, then the event at position `i`. */
  lemma QueryEventsSnoc(qs: seq<string>, i: nat, delayBefore: int, delayAfter: int)
    requires i < |qs|
    ensures QueryEvents(qs[..i + 1], delayBefore, delayAfter)
      == QueryEvents(qs[..i], delayBefore, delayAfter) + [QueryEventAt(qs[i], i, delayBefore, delayAfter)]
  {
    var a := QueryEvents(qs[..i + 1], delayBefore, delayAfter);
    var b := QueryEvents(qs[..i], delayBefore, delayAfter) + [QueryEventAt(qs[i], i, delayBefore, delayAfter)];
    assert |a| == |b|;
    forall k | 0 <= k < |a| ensures a[k] == b[k] {
      if k < i { assert qs[..i + 1][k] == qs[..i][k]; }
    }
  }
}
