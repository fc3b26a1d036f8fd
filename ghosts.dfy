/**
 * What the two GHOSTS timeline builders for the John Scott NPC share: the
 * timeline document GHOSTS reads, the fixed SSH and psql connection
 * details, and a model of shell quote removal (the quoting rules of the
 * POSIX Shell Command Language, section 2.2, with the removal of section
 * 2.6.7) that says what a command line hands to the program it runs.
 */
module Ghosts {
  import opened Text

  /** One entry of `TimeLineEvents`. */
  datatype TimelineEvent = TimelineEvent(command: string, commandArgs: seq<string>, delayBefore: int, delayAfter: int)

  /** One entry of `TimeLineHandlers`. */
  datatype Handler = Handler(handlerType: string, initial: string, utcTimeOn: string, utcTimeOff: string,
                             loop: bool, events: seq<TimelineEvent>)

  /** The timeline document: a status and its handlers. */
  datatype Timeline = Timeline(status: string, handlers: seq<Handler>)

  /** The document both builders emit: one Bash handler, on all day, running `events`. */
  function BashTimeline(events: seq<TimelineEvent>, loop: bool): Timeline {
    Timeline("Run", [Handler("Bash", "", "00:00:00", "23:59:00", loop, events)])
  }

  /** The events of a timeline built by `BashTimeline`. */
  function EventsOf(t: Timeline): seq<TimelineEvent> {
    if |t.handlers| == 1 then t.handlers[0].events else []
  }

  // ----- The connection details -----

  const SSH_KEY_PATH: string := "/root/.ssh/id_rsa"
  const SSH_USER: string := "labuser"
  const SSH_HOST: string := "172.30.0.10"
  const DB_HOST: string := "172.31.0.10"
  const DB_PORT: string := "5432"
  const DB_NAME: string := "labdb"
  const DB_USER: string := "john_scott"
  const DB_PASSWORD: string := "john_scott"

  /** The ssh invocation, up to and including the space before the remote command. */
  const SSH_PREFIX: string :=
    "ssh -o StrictHostKeyChecking=no" + " -o UserKnownHostsFile=/dev/null" + " -i " + SSH_KEY_PATH + " "
    + SSH_USER + "@" + SSH_HOST + " "

  /** The options of the psql invocation, between the password assignment and the `-c` argument. */
  const PSQL_OPTIONS: string := " psql -h " + DB_HOST + " -p " + DB_PORT + " -U " + DB_USER + " -d " + DB_NAME + " -c "

  /** The redirection of stderr after the psql invocation. */
  const STDERR_TO_STDOUT: string := " 2>&1"

  /** The psql invocation up to the opening double quote of its `-c` argument. */
  const PSQL_HEAD: string := "PGPASSWORD=" + "\"" + DB_PASSWORD + "\"" + PSQL_OPTIONS + "\""

  /** What follows the `-c` argument: its closing double quote and the redirection. */
  const PSQL_TAIL: string := "\"" + STDERR_TO_STDOUT

  /** The psql command line the remote shell runs once the quotes of `PSQL_HEAD` and `PSQL_TAIL` are removed. */
  function RemotePsql(sql: string): string {
    "PGPASSWORD=" + DB_PASSWORD + PSQL_OPTIONS + sql + STDERR_TO_STDOUT
  }

  /** `PGPASSWORD="..." psql ... -c "<arg>" 2>&1`: the remote command that runs one query. */
  function PsqlCommand(arg: string): string {
    PSQL_HEAD + arg + PSQL_TAIL
  }

  /** `ssh ... '<remote>'`: the remote command wrapped in single quotes. */
  function SshCommand(remote: string): string {
    SSH_PREFIX + "'" + remote + "'"
  }

  /** `echo '<msg>'`: what the remote side of an echo command runs. */
  function RemoteEcho(msg: string): string {
    "echo " + "'" + msg + "'"
  }

  /** `ssh ... "echo '<msg>'"`: the echo commands that open and close a work session. */
  function EchoCommand(msg: string): string {
    SSH_PREFIX + "\"" + RemoteEcho(msg) + "\""
  }

  // ----- Quote removal -----

  /** Where the shell's reader stands: outside quotes, inside either kind, or just after a backslash. */
  datatype Mode = Unquoted | SingleQuoted | DoubleQuoted | Escaped | EscapedInDouble

  /** The mode reached and the characters the word receives. */
  datatype Lexed = Lexed(mode: Mode, text: string)

  /**
   * One character read in mode `m`. Quote characters and the backslashes
   * that escape something are removed; inside double quotes a backslash
   * escapes only `$`, a backtick, `"` and another backslash. Expansions and
   * field splitting are not modelled: `$` and spaces are kept as they are.
   */
  function Next(m: Mode, c: char): Lexed {
    match m
    case Unquoted =>
      if c == '\'' then Lexed(SingleQuoted, [])
      else if c == '"' then Lexed(DoubleQuoted, [])
      else if c == '\\' then Lexed(Escaped, [])
      else Lexed(Unquoted, [c])
    case SingleQuoted =>
      if c == '\'' then Lexed(Unquoted, []) else Lexed(SingleQuoted, [c])
    case DoubleQuoted =>
      if c == '"' then Lexed(Unquoted, [])
      else if c == '\\' then Lexed(EscapedInDouble, [])
      else Lexed(DoubleQuoted, [c])
    case Escaped => Lexed(Unquoted, [c])
    case EscapedInDouble =>
      if c == '$' || c == '`' || c == '"' || c == '\\' then Lexed(DoubleQuoted, [c])
      else Lexed(DoubleQuoted, ['\\', c])
  }

  /** Reading `s` from mode `m`, left to right. */
  function Scan(m: Mode, s: string): Lexed
    decreases |s|
  {
    if s == [] then Lexed(m, [])
    else
      var n := Next(m, s[0]);
      var r := Scan(n.mode, s[1..]);
      Lexed(r.mode, n.text + r.text)
  }

  /** A command line the shell reads to the end with every quote closed. */
  predicate Balanced(s: string) {
    Scan(Unquoted, s).mode == Unquoted
  }

  /** Reading a concatenation reads the first part, then the second from where the first left off. */
  lemma {:induction false} ScanAppend(m: Mode, a: string, b: string)
    ensures Scan(m, a + b).mode == Scan(Scan(m, a).mode, b).mode
    ensures Scan(m, a + b).text == Scan(m, a).text + Scan(Scan(m, a).mode, b).text
    decreases |a|
  {
    if a == [] {
      assert a + b == b;
    } else {
      var n := Next(m, a[0]);
      assert (a + b)[0] == a[0];
      assert (a + b)[1..] == a[1..] + b;
      ScanAppend(n.mode, a[1..], b);
    }
  }

  /** The same, given what each part reads to. */
  lemma ScanThen(m: Mode, a: string, b: string, ma: Mode, ta: string, mb: Mode, tb: string)
    requires Scan(m, a) == Lexed(ma, ta) && Scan(ma, b) == Lexed(mb, tb)
    ensures Scan(m, a + b) == Lexed(mb, ta + tb)
  {
    ScanAppend(m, a, b);
  }

  /** Character `c` is not special in mode `m`. */
  predicate InertChar(m: Mode, c: char) {
    match m
    case Unquoted => c != '\'' && c != '"' && c != '\\'
    case SingleQuoted => c != '\''
    case DoubleQuoted => c != '"' && c != '\\'
    case _ => false
  }

  /** No character of `s` is special in mode `m`. */
  predicate Inert(m: Mode, s: string) {
    forall i | 0 <= i < |s| :: InertChar(m, s[i])
  }

  /** Text with nothing special in it is read as it stands and leaves the mode alone. */
  lemma {:induction false} ScanInert(m: Mode, s: string)
    requires Inert(m, s)
    ensures Scan(m, s) == Lexed(m, s)
    decreases |s|
  {
    if s != [] {
      assert InertChar(m, s[0]);
      assert Inert(m, s[1..]) by {
        forall i | 0 <= i < |s[1..]| ensures InertChar(m, s[1..][i]) {
          assert s[1..][i] == s[i + 1];
        }
      }
      ScanInert(m, s[1..]);
      assert [s[0]] + s[1..] == s;
    }
  }

  /** Text with no quote and no backslash: read as it stands in every quoting mode. */
  predicate Plain(s: string) {
    Inert(Unquoted, s)
  }

  /** What is plain is inert inside either kind of quotes too. */
  lemma PlainInert(s: string)
    requires Plain(s)
    ensures Inert(SingleQuoted, s) && Inert(DoubleQuoted, s)
  {
    forall i | 0 <= i < |s| ensures InertChar(SingleQuoted, s[i]) && InertChar(DoubleQuoted, s[i]) {
      assert InertChar(Unquoted, s[i]);
    }
  }

  lemma InertAppend(m: Mode, a: string, b: string)
    requires Inert(m, a) && Inert(m, b)
    ensures Inert(m, a + b)
  {
    forall i | 0 <= i < |a + b| ensures InertChar(m, (a + b)[i]) {
      if i < |a| { assert (a + b)[i] == a[i]; } else { assert (a + b)[i] == b[i - |a|]; }
    }
  }

  lemma SshOptionsPlain()
    ensures Plain("ssh -o StrictHostKeyChecking=no" + " -o UserKnownHostsFile=/dev/null")
  {
    assert Plain("ssh -o StrictHostKeyChecking=no");
    assert Plain(" -o UserKnownHostsFile=/dev/null");
    InertAppend(Unquoted, "ssh -o StrictHostKeyChecking=no", " -o UserKnownHostsFile=/dev/null");
  }

  lemma SshTargetPlain()
    ensures Plain(" -i " + SSH_KEY_PATH + " " + SSH_USER + "@" + SSH_HOST + " ")
  {
    var key := " -i " + SSH_KEY_PATH;
    var target := " " + SSH_USER + "@" + SSH_HOST + " ";
    assert Plain(key) && Plain(target);
    InertAppend(Unquoted, key, target);
    assert " -i " + SSH_KEY_PATH + " " + SSH_USER + "@" + SSH_HOST + " " == key + target;
  }

  /** None of the fixed connection details holds a quote or a backslash. */
  lemma SshPrefixPlain()
    ensures Plain(SSH_PREFIX)
  {
    SshOptionsPlain();
    SshTargetPlain();
    InertAppend(Unquoted, "ssh -o StrictHostKeyChecking=no" + " -o UserKnownHostsFile=/dev/null",
      " -i " + SSH_KEY_PATH + " " + SSH_USER + "@" + SSH_HOST + " ");
    assert SSH_PREFIX == "ssh -o StrictHostKeyChecking=no" + " -o UserKnownHostsFile=/dev/null"
      + (" -i " + SSH_KEY_PATH + " " + SSH_USER + "@" + SSH_HOST + " ");
  }

  lemma PsqlOptionsPlain()
    ensures Plain(PSQL_OPTIONS)
  {
    PsqlHostPlain();
    PsqlUserPlain();
    InertAppend(Unquoted, " psql -h " + DB_HOST + " -p " + DB_PORT, " -U " + DB_USER + " -d " + DB_NAME + " -c ");
  }

  lemma PsqlHostPlain()
    ensures Plain(" psql -h " + DB_HOST + " -p " + DB_PORT)
  {
  }

  lemma PsqlUserPlain()
    ensures Plain(" -U " + DB_USER + " -d " + DB_NAME + " -c ")
  {
  }

  /** A one-character string reads as one step. */
  lemma ScanOne(m: Mode, c: char)
    ensures Scan(m, [c]) == Next(m, c)
  {
    assert [c][1..] == [];
  }

  /** `a"b"c"<arg>"d` reads to `abc`, then what `arg` reads to inside double quotes, then `d`. */
  lemma {:induction false} QuotedTwice(a: string, b: string, c: string, arg: string, sql: string, d: string)
    requires Plain(a) && Plain(b) && Plain(c) && Plain(d)
    requires Scan(DoubleQuoted, arg) == Lexed(DoubleQuoted, sql)
    ensures Scan(Unquoted, (a + "\"" + b + "\"" + c + "\"") + arg + ("\"" + d)) == Lexed(Unquoted, a + b + c + sql + d)
  {
    assert (a + "\"" + b + "\"" + c + "\"") + arg + ("\"" + d) == a + "\"" + b + "\"" + c + "\"" + arg + "\"" + d;
    ScanInert(Unquoted, a);
    ScanOne(Unquoted, '"');
    ScanThen(Unquoted, a, "\"", Unquoted, a, DoubleQuoted, []);
    PlainInert(b);
    ScanInert(DoubleQuoted, b);
    ScanThen(Unquoted, a + "\"", b, DoubleQuoted, a, DoubleQuoted, b);
    ScanOne(DoubleQuoted, '"');
    ScanThen(Unquoted, a + "\"" + b, "\"", DoubleQuoted, a + b, Unquoted, []);
    ScanInert(Unquoted, c);
    ScanThen(Unquoted, a + "\"" + b + "\"", c, Unquoted, a + b, Unquoted, c);
    ScanThen(Unquoted, a + "\"" + b + "\"" + c, "\"", Unquoted, a + b + c, DoubleQuoted, []);
    ScanThen(Unquoted, a + "\"" + b + "\"" + c + "\"", arg, DoubleQuoted, a + b + c, DoubleQuoted, sql);
    ScanThen(Unquoted, a + "\"" + b + "\"" + c + "\"" + arg, "\"", DoubleQuoted, a + b + c + sql, Unquoted, []);
    ScanInert(Unquoted, d);
    ScanThen(Unquoted, a + "\"" + b + "\"" + c + "\"" + arg + "\"", d, Unquoted, a + b + c + sql, Unquoted, d);
  }

  /**
   * The remote shell hands psql `sql` verbatim when the argument written
   * between the double quotes reads to `sql` inside them.
   */
  lemma PsqlDelivered(arg: string, sql: string)
    requires Scan(DoubleQuoted, arg) == Lexed(DoubleQuoted, sql)
    ensures Scan(Unquoted, PsqlCommand(arg)) == Lexed(Unquoted, RemotePsql(sql))
  {
    PsqlOptionsPlain();
    assert Plain("PGPASSWORD=") && Plain(DB_PASSWORD) && Plain(STDERR_TO_STDOUT);
    QuotedTwice("PGPASSWORD=", DB_PASSWORD, PSQL_OPTIONS, arg, sql, STDERR_TO_STDOUT);
  }

  /** `p"<inner>"` reads to `p` then `inner` as it stands, when nothing in `inner` is special inside double quotes. */
  lemma {:induction false} DoubleQuotedWord(p: string, inner: string)
    requires Plain(p) && Inert(DoubleQuoted, inner)
    ensures Scan(Unquoted, p + "\"" + inner + "\"") == Lexed(Unquoted, p + inner)
  {
    ScanInert(Unquoted, p);
    ScanOne(Unquoted, '"');
    ScanThen(Unquoted, p, "\"", Unquoted, p, DoubleQuoted, []);
    ScanInert(DoubleQuoted, inner);
    ScanThen(Unquoted, p + "\"", inner, DoubleQuoted, p, DoubleQuoted, inner);
    ScanOne(DoubleQuoted, '"');
    ScanThen(Unquoted, p + "\"" + inner, "\"", DoubleQuoted, p + inner, Unquoted, []);
  }

  /** `e'<m>'` reads to `e` then `m` as it stands, when `m` holds no single quote. */
  lemma {:induction false} SingleQuotedWord(e: string, m: string)
    requires Plain(e) && Inert(SingleQuoted, m)
    ensures Scan(Unquoted, e + "'" + m + "'") == Lexed(Unquoted, e + m)
  {
    ScanInert(Unquoted, e);
    ScanOne(Unquoted, '\'');
    ScanThen(Unquoted, e, "'", Unquoted, e, SingleQuoted, []);
    ScanInert(SingleQuoted, m);
    ScanThen(Unquoted, e + "'", m, SingleQuoted, e, SingleQuoted, m);
    ScanOne(SingleQuoted, '\'');
    ScanThen(Unquoted, e + "'" + m, "'", SingleQuoted, e + m, Unquoted, []);
  }

  /** A plain message leaves the remote echo command with nothing special inside double quotes. */
  lemma RemoteEchoInert(msg: string)
    requires Plain(msg)
    ensures Inert(DoubleQuoted, RemoteEcho(msg)) && Inert(SingleQuoted, msg)
  {
    PlainInert(msg);
    assert Inert(DoubleQuoted, "echo " + "'");
    InertAppend(DoubleQuoted, "echo " + "'", msg);
    assert Inert(DoubleQuoted, "'");
    InertAppend(DoubleQuoted, "echo " + "'" + msg, "'");
  }

  /**
   * An echo command whose message holds no quote or backslash closes all
   * its quotes, the remote side receives `echo '<msg>'`, and that in turn
   * runs echo on the message itself.
   */
  lemma EchoDelivered(msg: string)
    requires Plain(msg)
    ensures Scan(Unquoted, EchoCommand(msg)) == Lexed(Unquoted, SSH_PREFIX + RemoteEcho(msg))
    ensures Scan(Unquoted, RemoteEcho(msg)) == Lexed(Unquoted, "echo " + msg)
  {
    SshPrefixPlain();
    RemoteEchoInert(msg);
    DoubleQuotedWord(SSH_PREFIX, RemoteEcho(msg));
    assert Plain("echo ");
    SingleQuotedWord("echo ", msg);
  }

  /** The psql command holds no single quote of its own: only its argument can bring one. */
  lemma PsqlCommandInert(arg: string)
    requires Inert(SingleQuoted, arg)
    ensures Inert(SingleQuoted, PsqlCommand(arg))
  {
    PsqlPartsInert();
    InertAppend(SingleQuoted, PSQL_HEAD, arg);
    InertAppend(SingleQuoted, PSQL_HEAD + arg, PSQL_TAIL);
  }

  /** Neither fixed part of the psql command holds a single quote. */
  lemma PsqlPartsInert()
    ensures Inert(SingleQuoted, PSQL_HEAD) && Inert(SingleQuoted, PSQL_TAIL)
  {
    PsqlOptionsPlain();
    assert Plain("PGPASSWORD=") && Plain(DB_PASSWORD) && Plain(STDERR_TO_STDOUT);
    PlainInert("PGPASSWORD=");
    PlainInert(DB_PASSWORD);
    PlainInert(PSQL_OPTIONS);
    PlainInert(STDERR_TO_STDOUT);
    assert Inert(SingleQuoted, "\"");
    InertAppend(SingleQuoted, "PGPASSWORD=", "\"");
    InertAppend(SingleQuoted, "PGPASSWORD=" + "\"", DB_PASSWORD);
    InertAppend(SingleQuoted, "PGPASSWORD=" + "\"" + DB_PASSWORD, "\"");
    InertAppend(SingleQuoted, "PGPASSWORD=" + "\"" + DB_PASSWORD + "\"", PSQL_OPTIONS);
    InertAppend(SingleQuoted, "PGPASSWORD=" + "\"" + DB_PASSWORD + "\"" + PSQL_OPTIONS, "\"");
    InertAppend(SingleQuoted, "\"", STDERR_TO_STDOUT);
  }

  /**
   * A remote command with no single quote is handed to the remote side as
   * it stands, and the local command line closes all its quotes.
   */
  lemma SshDelivered(remote: string)
    requires Inert(SingleQuoted, remote)
    ensures Scan(Unquoted, SshCommand(remote)) == Lexed(Unquoted, SSH_PREFIX + remote)
  {
    SshPrefixPlain();
    SingleQuotedWord(SSH_PREFIX, remote);
  }

  /** `e'<body>'` reads to `e` then what `body` reads to inside single quotes, when that closes no quote. */
  lemma SingleQuotedRead(e: string, body: string, text: string)
    requires Plain(e) && Scan(SingleQuoted, body) == Lexed(SingleQuoted, text)
    ensures Scan(Unquoted, e + "'" + body + "'") == Lexed(Unquoted, e + text)
  {
    ScanInert(Unquoted, e);
    ScanOne(Unquoted, '\'');
    ScanThen(Unquoted, e, "'", Unquoted, e, SingleQuoted, []);
    ScanThen(Unquoted, e + "'", body, SingleQuoted, e, SingleQuoted, text);
    ScanOne(SingleQuoted, '\'');
    ScanThen(Unquoted, e + "'" + body, "'", SingleQuoted, e + text, Unquoted, []);
  }

  /** The local shell hands ssh what the quoted remote command reads to inside single quotes. */
  lemma SshCommandReads(body: string, text: string)
    requires Scan(SingleQuoted, body) == Lexed(SingleQuoted, text)
    ensures Scan(Unquoted, SshCommand(body)) == Lexed(Unquoted, SSH_PREFIX + text)
  {
    SshPrefixPlain();
    SingleQuotedRead(SSH_PREFIX, body, text);
  }
}
