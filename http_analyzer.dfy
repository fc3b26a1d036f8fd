/**
 * The SLIPS HTTP analyzer as patched for the defender: per-flow detectors
 * for executable downloads, suspicious user agents, pastebin downloads,
 * repeated empty connections to well-known hosts and password guessing,
 * and the table of recognised GET servers with its periodic cleanup.
 * Timestamps are whole seconds; the wall clock `now` is a parameter.
 */
module HttpAnalyzer {
  import opened Wrappers
  import opened Text

  const EMPTY_CONNECTIONS_THRESHOLD: nat := 4
  const PASSWORD_GUESSING_THRESHOLD: nat := 10
  /** Login attempts at most this many seconds old count towards password guessing. */
  const LOGIN_WINDOW: int := 300
  /** The recognised-flows table is cleaned once more than this many seconds have passed. */
  const CLEANUP_INTERVAL: int := 600
  /** A cleanup keeps only recognised GET timestamps younger than this many seconds. */
  const FLOW_MAX_AGE: int := 3600

  /** Hosts that malware contacts to test its connectivity, in the order they are tried. */
  const EmptyConnectionHosts: seq<string> :=
    ["bing.com", "google.com", "yandex.com", "yahoo.com", "duckduckgo.com", "gmail.com"]

  const ExecutableMimeTypes: seq<string> := [
    "application/x-msdownload", "application/x-ms-dos-executable", "application/x-ms-exe",
    "application/x-exe", "application/x-winexe", "application/x-winhlp",
    "application/x-winhelp", "application/octet-stream", "application/x-dosexec"]

  const SuspiciousUserAgents: seq<string> := ["httpsend", "chm_msdn", "pb", "jndi", "tesseract"]

  const LoginPaths: set<string> := {
    "/login", "/signin", "/auth", "/authenticate", "/user/login",
    "/account/login", "/admin/login", "/api/login", "/api/auth",
    "/auth/login", "/sessions", "/session", "/logon", "/sign-in",
    "/wp-login.php", "/user", "/login.php", "/auth.php"}

  /** The fields of a Zeek HTTP flow the detectors read. */
  datatype HttpFlow = HttpFlow(
    verb: string, uri: string, host: string, saddr: string, uid: string,
    starttime: int, dport: int, respFuids: seq<string>, respMimeTypes: seq<string>,
    userAgent: string, responseBodyLen: Option<int>)

  /** The fields of a generic flow the recognised-flows table reads; absent attributes are `None`. */
  datatype ConnFlow = ConnFlow(verb: Option<string>, daddr: Option<string>, dport: Option<int>, starttime: int)

  datatype Evidence =
    | SuspiciousUserAgent
    | MultipleEmptyConnections(uids: seq<string>)
    | ExecutableMimeType
    | PastebinDownload
    | PasswordGuessing(uids: seq<string>, attempts: nat)
    | HttpTraffic

  // ---------------------------------------------------------------------
  // Time windows
  // ---------------------------------------------------------------------

  /** The entries of `xs` stamped strictly after `cutoff`, in their order. */
  function Since<T>(xs: seq<T>, time: T -> int, cutoff: int): (r: seq<T>)
    ensures |r| <= |xs|
    ensures forall k :: 0 <= k < |r| ==> time(r[k]) > cutoff
    decreases |xs|
  {
    if xs == [] then []
    else (if time(xs[0]) > cutoff then [xs[0]] else []) + Since(xs[1..], time, cutoff)
  }

  /** An entry survives the window exactly when it was there and is recent enough. */
  lemma {:induction false} SinceMember<T>(xs: seq<T>, time: T -> int, cutoff: int, x: T)
    ensures x in Since(xs, time, cutoff) <==> x in xs && time(x) > cutoff
    decreases |xs|
  {
    if xs != [] {
      SinceMember(xs[1..], time, cutoff, x);
      assert xs == [xs[0]] + xs[1..];
    }
  }

  /** Filtering a concatenation filters each part. */
  lemma {:induction false} SinceAppend<T>(xs: seq<T>, ys: seq<T>, time: T -> int, cutoff: int)
    ensures Since(xs + ys, time, cutoff) == Since(xs, time, cutoff) + Since(ys, time, cutoff)
    decreases |xs|
  {
    if xs != [] {
      var zs := xs + ys;
      assert zs != [] && zs[0] == xs[0] && zs[1..] == xs[1..] + ys;
      SinceAppend(xs[1..], ys, time, cutoff);
      var head := if time(xs[0]) > cutoff then [xs[0]] else [];
      assert Since(zs, time, cutoff) == head + Since(zs[1..], time, cutoff);
      assert Since(xs, time, cutoff) == head + Since(xs[1..], time, cutoff);
    } else {
      assert xs + ys == ys;
    }
  }

  /** Filtering a list with one more entry: the old survivors stay, and the new entry ends the result when it survives. */
  lemma SinceSnoc<T>(xs: seq<T>, x: T, time: T -> int, cutoff: int)
    ensures var w := Since(xs + [x], time, cutoff);
      && |w| <= |xs| + 1
      && (forall a :: a in xs && time(a) > cutoff ==> a in w)
      && (time(x) > cutoff ==> w != [] && w[|w| - 1] == x)
      && (time(x) <= cutoff ==> w == Since(xs, time, cutoff))
  {
    var mine := [x];
    SinceAppend(xs, mine, time, cutoff);
    forall a | a in xs && time(a) > cutoff
      ensures a in Since(xs + mine, time, cutoff)
    {
      SinceMember(xs + mine, time, cutoff, a);
    }
    assert Since(mine[1..], time, cutoff) == [];
  }

  /** Filtering with a later cutoff after an earlier one is filtering with the later one. */
  lemma {:induction false} SinceLater<T>(xs: seq<T>, time: T -> int, early: int, late: int)
    requires early <= late
    ensures Since(Since(xs, time, early), time, late) == Since(xs, time, late)
    decreases |xs|
  {
    if xs != [] {
      SinceLater(xs[1..], time, early, late);
      var head := if time(xs[0]) > early then [xs[0]] else [];
      SinceAppend(head, Since(xs[1..], time, early), time, late);
      if time(xs[0]) > early {
        assert Since(head, time, late) == if time(xs[0]) > late then [xs[0]] else [];
      }
    }
  }

  /** A list whose entries are all recent enough is left as it is. */
  lemma {:induction false} SinceAllRecent<T>(xs: seq<T>, time: T -> int, cutoff: int)
    requires forall k :: 0 <= k < |xs| ==> time(xs[k]) > cutoff
    ensures Since(xs, time, cutoff) == xs
    decreases |xs|
  {
    if xs != [] {
      SinceAllRecent(xs[1..], time, cutoff);
    }
  }

  // ---------------------------------------------------------------------
  // Pure detectors
  // ---------------------------------------------------------------------

  /** `detect_executable_mime_types`: some response MIME type is an executable one. */
  function ExecutableMimeIn(mimes: seq<string>): (r: bool)
    ensures r <==> exists k :: 0 <= k < |mimes| && mimes[k] in ExecutableMimeTypes
    decreases |mimes|
  {
    if mimes == [] then false
    else if mimes[0] in ExecutableMimeTypes then true
    else ExecutableMimeIn(mimes[1..])
  }

  /** The suspicious-pattern scan of `check_suspicious_user_agents`, from pattern `k` on. */
  function SuspiciousFrom(ua: string, k: nat): (r: bool)
    requires k <= |SuspiciousUserAgents|
    ensures r <==>
      exists j :: k <= j < |SuspiciousUserAgents| && Contains(Lower(ua), Lower(SuspiciousUserAgents[j]))
    decreases |SuspiciousUserAgents| - k
  {
    if k == |SuspiciousUserAgents| then false
    else if Contains(Lower(ua), Lower(SuspiciousUserAgents[k])) then true
    else SuspiciousFrom(ua, k + 1)
  }

  /** `check_suspicious_user_agents`: the user agent contains a listed pattern, ignoring case. */
  predicate IsSuspiciousUserAgent(ua: string) {
    SuspiciousFrom(ua, 0)
  }

  /** Any user agent containing "pb" in any case is suspicious. */
  lemma PbIsSuspicious(ua: string)
    requires Contains(Lower(ua), "pb")
    ensures IsSuspiciousUserAgent(ua)
  {
    assert Lower(SuspiciousUserAgents[2]) == "pb";
  }

  /** Every fuid of the response is "-", i.e. no file was transferred. */
  predicate AllDashes(fuids: seq<string>) {
    forall k :: 0 <= k < |fuids| ==> fuids[k] == "-"
  }

  /**
   * `check_pastebin_downloads`: a pastebin host whose response carried a
   * file and a body longer than the configured threshold.
   */
  function IsPastebinDownload(flow: HttpFlow, threshold: int): (r: bool)
    ensures r <==> && Contains(flow.host, "pastebin")
                   && (exists k :: 0 <= k < |flow.respFuids| && flow.respFuids[k] != "-")
                   && flow.responseBodyLen.Some? && flow.responseBodyLen.value > threshold
  {
    if !Contains(flow.host, "pastebin") then false
    else if flow.respFuids == [] then false
    else if !AllDashes(flow.respFuids) then
      if flow.responseBodyLen.Some? then flow.responseBodyLen.value > threshold
      else false
    else false
  }

  // ---------------------------------------------------------------------
  // Login paths
  // ---------------------------------------------------------------------

  /** The lower-cased path of a URI: everything before its first `?`. */
  function PathOf(uri: string): (p: string)
    ensures '?' !in p && p <= Lower(uri)
    ensures |p| < |uri| ==> Lower(uri)[|p|] == '?'
  {
    var l := Lower(uri);
    if '?' in l then
      var i := IndexOfChar(l, '?');
      assert Split(l, '?')[0] == l[..i];
      Split(l, '?')[0]
    else Split(l, '?')[0]
  }

  /** A query string never changes the path. */
  lemma QueryIgnored(path: string, query: string)
    requires '?' !in path
    ensures PathOf(path + "?" + query) == Lower(path)
  {
    var l := Lower(path + "?" + query);
    assert l == Lower(path) + ['?'] + Lower(query);
    assert '?' !in Lower(path) by {
      forall i | 0 <= i < |path| ensures Lower(path)[i] != '?' {
        assert path[i] != '?';
      }
    }
    SplitAtFirst(Lower(path), '?', Lower(query));
  }

  predicate MatchesLoginPath(path: string, lp: string) {
    path == lp || StartsWith(path, lp + "/") || EndsWith(path, lp)
  }

  /** The login-path test of `check_password_guessing`. */
  predicate IsLoginPath(path: string) {
    exists lp | lp in LoginPaths :: MatchesLoginPath(path, lp)
  }

  /** A listed path, every path below it and every path ending with it is a login path. */
  lemma LoginPathFamily(lp: string, rest: string)
    requires lp in LoginPaths
    ensures IsLoginPath(lp) && IsLoginPath(lp + "/" + rest) && IsLoginPath(rest + lp)
  {
    assert MatchesLoginPath(lp, lp);
    assert (lp + "/") <= lp + "/" + rest;
    assert MatchesLoginPath(lp + "/" + rest, lp);
    assert (rest + lp)[|rest + lp| - |lp|..] == lp;
    assert MatchesLoginPath(rest + lp, lp);
  }

  /** A POST to a login path. */
  predicate IsLoginAttempt(flow: HttpFlow) {
    flow.verb == "POST" && IsLoginPath(PathOf(flow.uri))
  }

  function AttemptTime(a: (int, string)): int { a.0 }

  function AttemptUids(xs: seq<(int, string)>): (r: seq<string>)
    ensures |r| == |xs| && forall k :: 0 <= k < |xs| ==> r[k] == xs[k].1
  {
    seq(|xs|, k requires 0 <= k < |xs| => xs[k].1)
  }

  function ConnectionUids(xs: seq<(string, int)>): (r: seq<string>)
    ensures |r| == |xs| && forall k :: 0 <= k < |xs| ==> r[k] == xs[k].0
  {
    seq(|xs|, k requires 0 <= k < |xs| => xs[k].0)
  }

  /** The source's attempts after adding this flow's attempt and dropping those older than the window. */
  function Window(attempts: map<string, seq<(int, string)>>, flow: HttpFlow, now: int): seq<(int, string)> {
    var previous := if flow.saddr in attempts then attempts[flow.saddr] else [];
    Since(previous + [(flow.starttime, flow.uid)], AttemptTime, now - LOGIN_WINDOW)
  }

  /**
   * The window holds only attempts newer than `now - 300`, holds every such
   * earlier attempt, and ends with this flow's attempt when that is recent.
   */
  lemma WindowContents(attempts: map<string, seq<(int, string)>>, flow: HttpFlow, now: int)
    ensures var w := Window(attempts, flow, now);
      var previous := if flow.saddr in attempts then attempts[flow.saddr] else [];
      && (forall k :: 0 <= k < |w| ==> w[k].0 > now - LOGIN_WINDOW)
      && |w| <= |previous| + 1
      && (forall a :: a in previous && a.0 > now - LOGIN_WINDOW ==> a in w)
      && (flow.starttime > now - LOGIN_WINDOW ==> w != [] && w[|w| - 1] == (flow.starttime, flow.uid))
      && (flow.starttime <= now - LOGIN_WINDOW ==> w == Since(previous, AttemptTime, now - LOGIN_WINDOW))
  {
    var previous := if flow.saddr in attempts then attempts[flow.saddr] else [];
    SinceSnoc(previous, (flow.starttime, flow.uid), AttemptTime, now - LOGIN_WINDOW);
  }

  // ---------------------------------------------------------------------
  // Empty connections
  // ---------------------------------------------------------------------

  /** An HTTP request to "/" on port 80 whose response carried no file. */
  predicate IsEmptyConnection(flow: HttpFlow) {
    flow.uri == "/" && flow.dport == 80 && flow.respFuids != [] && AllDashes(flow.respFuids)
  }

  /** The index of the first listed host from `from` on that occurs in `host`. */
  function FirstHostFrom(host: string, from: nat): (r: Option<nat>)
    requires from <= |EmptyConnectionHosts|
    ensures r.Some? ==>
      && from <= r.value < |EmptyConnectionHosts|
      && Contains(host, EmptyConnectionHosts[r.value])
      && forall j :: from <= j < r.value ==> !Contains(host, EmptyConnectionHosts[j])
    ensures r.None? ==> forall j :: from <= j < |EmptyConnectionHosts| ==> !Contains(host, EmptyConnectionHosts[j])
    decreases |EmptyConnectionHosts| - from
  {
    if from == |EmptyConnectionHosts| then None
    else if Contains(host, EmptyConnectionHosts[from]) then Some(from)
    else FirstHostFrom(host, from + 1)
  }

  /** The counter key of an empty connection: the first listed host that `host` contains. */
  function CounterKey(host: string): Option<string> {
    match FirstHostFrom(host, 0)
    case None => None
    case Some(k) => Some(EmptyConnectionHosts[k])
  }

  /** Storing a short enough list under a search host keeps the counter table's invariant. */
  lemma CounterStaysSmall(m: map<string, seq<(string, int)>>, h: string, xs: seq<(string, int)>)
    requires forall k | k in m :: k in EmptyConnectionHosts && |m[k]| < EMPTY_CONNECTIONS_THRESHOLD
    requires h in EmptyConnectionHosts && |xs| < EMPTY_CONNECTIONS_THRESHOLD
    ensures var m' := m[h := xs]; forall k | k in m' :: k in EmptyConnectionHosts && |m'[k]| < EMPTY_CONNECTIONS_THRESHOLD
  {
  }

  // ---------------------------------------------------------------------
  // Recognised flows
  // ---------------------------------------------------------------------

  function Stamp(t: int): int { t }

  /** The timestamps of a server a cleanup at `now` keeps: those younger than an hour. */
  function Recent(ts: seq<int>, now: int): seq<int> {
    Since(ts, Stamp, now - FLOW_MAX_AGE)
  }

  /** The table with start time `t` appended to the timestamps of `server`, which may be new. */
  function WithStart(flows: map<(string, int), seq<int>>, server: (string, int), t: int): map<(string, int), seq<int>> {
    flows[server := (if server in flows then flows[server] else []) + [t]]
  }

  /** Appending a start time keeps every server's list non-empty. */
  lemma WithStartNonEmpty(flows: map<(string, int), seq<int>>, server: (string, int), t: int)
    requires forall s | s in flows :: flows[s] != []
    ensures var w := WithStart(flows, server, t); forall s | s in w :: w[s] != []
  {
  }

  /** The table a cleanup at `now` leaves: recent timestamps only, servers left with none dropped. */
  function Cleaned(flows: map<(string, int), seq<int>>, now: int): map<(string, int), seq<int>> {
    map s | s in flows && Recent(flows[s], now) != [] :: Recent(flows[s], now)
  }

  /**
   * After a cleanup every server has some timestamp, every timestamp is
   * younger than an hour, and a server's young timestamps all survive.
   */
  lemma CleanedContents(flows: map<(string, int), seq<int>>, now: int)
    ensures var c := Cleaned(flows, now);
      && c.Keys <= flows.Keys
      && (forall s | s in c :: c[s] != [] && forall k :: 0 <= k < |c[s]| ==> now - c[s][k] < FLOW_MAX_AGE)
      && (forall s, t | s in flows && t in flows[s] && now - t < FLOW_MAX_AGE :: s in c && t in c[s])
  {
    var c := Cleaned(flows, now);
    forall s, t | s in flows && t in flows[s] && now - t < FLOW_MAX_AGE
      ensures s in c && t in c[s]
    {
      SinceMember(flows[s], Stamp, now - FLOW_MAX_AGE, t);
    }
  }

  /** A second cleanup at the same or a later time is the later cleanup of the original table. */
  lemma CleanedLater(flows: map<(string, int), seq<int>>, early: int, late: int)
    requires early <= late
    ensures Cleaned(Cleaned(flows, early), late) == Cleaned(flows, late)
  {
    var a := Cleaned(Cleaned(flows, early), late);
    var b := Cleaned(flows, late);
    forall s | s in flows
      ensures Recent(Recent(flows[s], early), late) == Recent(flows[s], late)
    {
      SinceLater(flows[s], Stamp, early - FLOW_MAX_AGE, late - FLOW_MAX_AGE);
    }
    forall s | s in flows && Recent(flows[s], early) == []
      ensures Recent(flows[s], late) == []
    {
      assert Recent(flows[s], late) == Recent(Recent(flows[s], early), late);
    }
    assert a.Keys == b.Keys;
  }

  // ---------------------------------------------------------------------
  // The analyzer's state
  // ---------------------------------------------------------------------

  /**
   * The evidence list is the detectors' contributions in order, closed by the
   * HTTP-traffic evidence: an item is in it exactly when its detector raised it.
   */
  lemma EvidenceKinds(ua: seq<Evidence>, empty: seq<Evidence>, exe: seq<Evidence>, paste: seq<Evidence>, guess: seq<Evidence>,
                      suspicious: bool, emptyRaised: bool, x: Evidence, mime: bool, pastebin: bool, guessed: bool, y: Evidence)
    requires ua == if suspicious then [SuspiciousUserAgent] else []
    requires empty == if emptyRaised then [x] else []
    requires exe == if mime then [ExecutableMimeType] else []
    requires paste == if pastebin then [PastebinDownload] else []
    requires guess == if guessed then [y] else []
    ensures var ev := ua + empty + exe + paste + guess + [HttpTraffic];
      && ev[|ev| - 1] == HttpTraffic
      && forall e :: e in ev <==> Raised(e, suspicious, emptyRaised, x, mime, pastebin, guessed, y)
  {
    var ev := ua + empty + exe + paste + guess + [HttpTraffic];
    forall e
      ensures e in ev <==> Raised(e, suspicious, emptyRaised, x, mime, pastebin, guessed, y)
    {
      InSix(ua, empty, exe, paste, guess, HttpTraffic, e);
    }
  }

  /** Whether `e` is one of the items the detectors raised, or the HTTP-traffic evidence. */
  predicate Raised(e: Evidence, suspicious: bool, emptyRaised: bool, x: Evidence, mime: bool, pastebin: bool, guessed: bool, y: Evidence) {
    || (suspicious && e == SuspiciousUserAgent)
    || (emptyRaised && e == x)
    || (mime && e == ExecutableMimeType)
    || (pastebin && e == PastebinDownload)
    || (guessed && e == y)
    || e == HttpTraffic
  }

  /** Read kind by kind: each flag is present exactly when raised, and the two carrying data only as raised. */
  lemma RaisedKinds(ev: seq<Evidence>, suspicious: bool, emptyRaised: bool, x: Evidence, mime: bool, pastebin: bool, guessed: bool, y: Evidence)
    requires x.MultipleEmptyConnections? && y.PasswordGuessing?
    requires forall e :: e in ev <==> Raised(e, suspicious, emptyRaised, x, mime, pastebin, guessed, y)
    ensures SuspiciousUserAgent in ev <==> suspicious
    ensures ExecutableMimeType in ev <==> mime
    ensures PastebinDownload in ev <==> pastebin
    ensures emptyRaised ==> x in ev
    ensures forall e | e in ev && e.MultipleEmptyConnections? :: emptyRaised && e == x
    ensures guessed ==> y in ev
    ensures forall e | e in ev && e.PasswordGuessing? :: guessed && e == y
  {
    assert SuspiciousUserAgent in ev <==> Raised(SuspiciousUserAgent, suspicious, emptyRaised, x, mime, pastebin, guessed, y);
    assert ExecutableMimeType in ev <==> Raised(ExecutableMimeType, suspicious, emptyRaised, x, mime, pastebin, guessed, y);
    assert PastebinDownload in ev <==> Raised(PastebinDownload, suspicious, emptyRaised, x, mime, pastebin, guessed, y);
  }

  /** Membership in five lists and a last element, joined. */
  lemma InSix<T>(a: seq<T>, b: seq<T>, c: seq<T>, d: seq<T>, f: seq<T>, t: T, e: T)
    ensures e in a + b + c + d + f + [t] <==> e in a || e in b || e in c || e in d || e in f || e == t
  {
  }

  /** Whether a flow raises password-guessing evidence against the attempts recorded so far. */
  predicate GuessingRaised(attempts: map<string, seq<(int, string)>>, flow: HttpFlow, now: int) {
    IsLoginAttempt(flow) && |Window(attempts, flow, now)| >= PASSWORD_GUESSING_THRESHOLD
  }

  /** The password-guessing evidence: the uids and the number of the attempts in the window. */
  function GuessingEvidence(attempts: map<string, seq<(int, string)>>, flow: HttpFlow, now: int): Evidence {
    var w := Window(attempts, flow, now);
    PasswordGuessing(AttemptUids(w), |w|)
  }

  /** The login-attempt table after a flow: a login POST stores its window, or clears it on detection. */
  function AfterLogin(attempts: map<string, seq<(int, string)>>, flow: HttpFlow, now: int): map<string, seq<(int, string)>> {
    if !IsLoginAttempt(flow) then attempts
    else if GuessingRaised(attempts, flow, now) then attempts[flow.saddr := []]
    else attempts[flow.saddr := Window(attempts, flow, now)]
  }

  /** The empty connections counted under a host once this flow is added. */
  function Counted(counter: map<string, seq<(string, int)>>, h: string, flow: HttpFlow): seq<(string, int)> {
    (if h in counter then counter[h] else []) + [(flow.uid, flow.starttime)]
  }

  /** Whether a flow raises multiple-empty-connections evidence: its host already held three. */
  predicate EmptyRaised(counter: map<string, seq<(string, int)>>, flow: HttpFlow) {
    && IsEmptyConnection(flow) && CounterKey(flow.host).Some?
    && var h := CounterKey(flow.host).value;
      h in counter && |counter[h]| == EMPTY_CONNECTIONS_THRESHOLD - 1
  }

  /** The multiple-empty-connections evidence: the uids of the host's connections, this one last. */
  function EmptyEvidence(counter: map<string, seq<(string, int)>>, flow: HttpFlow): Evidence
    requires CounterKey(flow.host).Some?
  {
    MultipleEmptyConnections(ConnectionUids(Counted(counter, CounterKey(flow.host).value, flow)))
  }

  /** The counter table after a flow: an empty connection to a listed host is added, or its host cleared on detection. */
  function AfterEmpty(counter: map<string, seq<(string, int)>>, flow: HttpFlow): map<string, seq<(string, int)>> {
    if !IsEmptyConnection(flow) || CounterKey(flow.host).None? then counter
    else
      var h := CounterKey(flow.host).value;
      if EmptyRaised(counter, flow) then counter[h := []] else counter[h := Counted(counter, h, flow)]
  }

  /** What `check_password_guessing` promises, read through the table-level definitions above. */
  lemma GuessingOutcome(attempts: map<string, seq<(int, string)>>, flow: HttpFlow, now: int,
                        detected: bool, uids: seq<string>, count: nat, after: map<string, seq<(int, string)>>)
    requires !IsLoginAttempt(flow) ==> !detected && after == attempts
    requires IsLoginAttempt(flow) ==>
      var w := Window(attempts, flow, now);
      && count == |w|
      && (detected <==> |w| >= PASSWORD_GUESSING_THRESHOLD)
      && (detected ==> uids == AttemptUids(w) && after == attempts[flow.saddr := []])
      && (!detected ==> after == attempts[flow.saddr := w])
    ensures after == AfterLogin(attempts, flow, now)
    ensures detected <==> GuessingRaised(attempts, flow, now)
    ensures detected ==> PasswordGuessing(uids, count) == GuessingEvidence(attempts, flow, now)
  {
  }

  /** What `check_multiple_empty_connections` promises, read through the table-level definitions above. */
  lemma EmptyOutcome(counter: map<string, seq<(string, int)>>, flow: HttpFlow,
                     r: Option<bool>, uids: seq<string>, after: map<string, seq<(string, int)>>)
    requires !IsEmptyConnection(flow) || CounterKey(flow.host).None? ==> r.None? && after == counter
    requires IsEmptyConnection(flow) && CounterKey(flow.host).Some? ==>
      var h := CounterKey(flow.host).value;
      var counted := (if h in counter then counter[h] else []) + [(flow.uid, flow.starttime)];
      && r.Some?
      && (r.value <==> h in counter && |counter[h]| == EMPTY_CONNECTIONS_THRESHOLD - 1)
      && (r.value ==> uids == ConnectionUids(counted) && after == counter[h := []])
      && (!r.value ==> after == counter[h := counted])
    ensures after == AfterEmpty(counter, flow)
    ensures r == Some(true) <==> EmptyRaised(counter, flow)
    ensures r == Some(true) ==> MultipleEmptyConnections(uids) == EmptyEvidence(counter, flow)
  {
  }

  /**
   * The evidence `new_http` sets for one flow, given the tables before it, in
   * the order the detectors run: user agent, empty connections, executable
   * MIME type, pastebin download, password guessing, and the HTTP traffic
   * every flow gets.
   */
  function FlowEvidence(flow: HttpFlow, now: int, threshold: int,
                        attempts: map<string, seq<(int, string)>>, counter: map<string, seq<(string, int)>>): seq<Evidence> {
    (if IsSuspiciousUserAgent(flow.userAgent) then [SuspiciousUserAgent] else [])
    + (if EmptyRaised(counter, flow) then [EmptyEvidence(counter, flow)] else [])
    + (if ExecutableMimeIn(flow.respMimeTypes) then [ExecutableMimeType] else [])
    + (if IsPastebinDownload(flow, threshold) then [PastebinDownload] else [])
    + (if GuessingRaised(attempts, flow, now) then [GuessingEvidence(attempts, flow, now)] else [])
    + [HttpTraffic]
  }

  /**
   * Each flag kind is in a flow's evidence exactly when its detector fires;
   * the password-guessing and empty-connections items are there exactly on
   * detection, and then carry the window's or the host's uids; the list
   * always ends with the HTTP-traffic evidence.
   */
  lemma FlowEvidenceMeans(flow: HttpFlow, now: int, threshold: int,
                          attempts: map<string, seq<(int, string)>>, counter: map<string, seq<(string, int)>>)
    ensures var ev := FlowEvidence(flow, now, threshold, attempts, counter);
      && ev != [] && ev[|ev| - 1] == HttpTraffic
      && (SuspiciousUserAgent in ev <==> IsSuspiciousUserAgent(flow.userAgent))
      && (ExecutableMimeType in ev <==> ExecutableMimeIn(flow.respMimeTypes))
      && (PastebinDownload in ev <==> IsPastebinDownload(flow, threshold))
      && (GuessingRaised(attempts, flow, now) ==> GuessingEvidence(attempts, flow, now) in ev)
      && (forall e | e in ev && e.PasswordGuessing? :: GuessingRaised(attempts, flow, now) && e == GuessingEvidence(attempts, flow, now))
      && (EmptyRaised(counter, flow) ==> EmptyEvidence(counter, flow) in ev)
      && (forall e | e in ev && e.MultipleEmptyConnections? :: EmptyRaised(counter, flow) && e == EmptyEvidence(counter, flow))
  {
    var suspicious, emptyRaised := IsSuspiciousUserAgent(flow.userAgent), EmptyRaised(counter, flow);
    var mime, pastebin, guessed := ExecutableMimeIn(flow.respMimeTypes), IsPastebinDownload(flow, threshold), GuessingRaised(attempts, flow, now);
    var x := if emptyRaised then EmptyEvidence(counter, flow) else MultipleEmptyConnections([]);
    var y := if guessed then GuessingEvidence(attempts, flow, now) else PasswordGuessing([], 0);
    var ua: seq<Evidence> := if suspicious then [SuspiciousUserAgent] else [];
    var empty: seq<Evidence> := if emptyRaised then [x] else [];
    var exe: seq<Evidence> := if mime then [ExecutableMimeType] else [];
    var paste: seq<Evidence> := if pastebin then [PastebinDownload] else [];
    var guess: seq<Evidence> := if guessed then [y] else [];
    assert FlowEvidence(flow, now, threshold, attempts, counter) == ua + empty + exe + paste + guess + [HttpTraffic];
    EvidenceKinds(ua, empty, exe, paste, guess, suspicious, emptyRaised, x, mime, pastebin, guessed, y);
    RaisedKinds(ua + empty + exe + paste + guess + [HttpTraffic], suspicious, emptyRaised, x, mime, pastebin, guessed, y);
  }

  class Analyzer {
    /** Recent login attempts `(starttime, uid)` per source address. */
    var loginAttempts: map<string, seq<(int, string)>>
    /** Empty connections `(uid, starttime)` per listed host. */
    var connectionsCounter: map<string, seq<(string, int)>>
    /** GET timestamps per server `(daddr, dport)`. */
    var recognizedFlows: map<(string, int), seq<int>>
    var lastCleanup: int
    const pastebinThreshold: int

    /**
     * Every stored window and counter is below its alert threshold, every
     * counter is keyed by a listed host, and no recognised server has an
     * empty timestamp list.
     */
    predicate Valid()
      reads this
    {
      && (forall ip | ip in loginAttempts :: |loginAttempts[ip]| < PASSWORD_GUESSING_THRESHOLD)
      && (forall h | h in connectionsCounter ::
            h in EmptyConnectionHosts && |connectionsCounter[h]| < EMPTY_CONNECTIONS_THRESHOLD)
      && (forall s | s in recognizedFlows :: recognizedFlows[s] != [])
    }

    /** `init`: empty tables; the last cleanup is the start time. */
    constructor (threshold: int, now: int)
      ensures Valid()
      ensures loginAttempts == map[] && connectionsCounter == map[] && recognizedFlows == map[]
      ensures lastCleanup == now && pastebinThreshold == threshold
    {
      loginAttempts := map[];
      connectionsCounter := map[];
      recognizedFlows := map[];
      lastCleanup := now;
      pastebinThreshold := threshold;
    }

    /**
     * `check_password_guessing`: a login attempt is added to its source's
     * window, the window is cut to the last 300 seconds, and when it then
     * holds at least 10 attempts their uids are reported and it is emptied.
     */
    method CheckPasswordGuessing(flow: HttpFlow, now: int) returns (detected: bool, uids: seq<string>, count: nat)
      requires Valid()
      modifies this`loginAttempts
      ensures Valid()
      ensures !IsLoginAttempt(flow) ==> !detected && loginAttempts == old(loginAttempts)
      ensures IsLoginAttempt(flow) ==>
        var w := Window(old(loginAttempts), flow, now);
        && count == |w|
        && (detected <==> |w| >= PASSWORD_GUESSING_THRESHOLD)
        && (detected ==> uids == AttemptUids(w) && loginAttempts == old(loginAttempts)[flow.saddr := []])
        && (!detected ==> loginAttempts == old(loginAttempts)[flow.saddr := w])
    {
      if flow.verb != "POST" {
        return false, [], 0;
      }
      var path := PathOf(flow.uri);
      if !IsLoginPath(path) {
        return false, [], 0;
      }
      var src := flow.saddr;
      if src !in loginAttempts {
        loginAttempts := loginAttempts[src := []];
      }
      loginAttempts := loginAttempts[src := loginAttempts[src] + [(flow.starttime, flow.uid)]];
      var cutoff := now - LOGIN_WINDOW;
      loginAttempts := loginAttempts[src := Since(loginAttempts[src], AttemptTime, cutoff)];
      count := |loginAttempts[src]|;
      if count >= PASSWORD_GUESSING_THRESHOLD {
        uids := AttemptUids(loginAttempts[src]);
        loginAttempts := loginAttempts[src := []];
        return true, uids, count;
      }
      return false, [], count;
    }

    /**
     * `check_multiple_empty_connections`: an empty connection to a listed
     * host is counted under the first listed host it contains; the fourth
     * one reports all their uids and resets that counter. `None` is the
     * source's bare `return` for flows it does not count.
     */
    method CheckMultipleEmptyConnections(flow: HttpFlow) returns (r: Option<bool>, uids: seq<string>)
      requires Valid()
      modifies this`connectionsCounter
      ensures Valid()
      ensures !IsEmptyConnection(flow) || CounterKey(flow.host).None? ==>
        r.None? && connectionsCounter == old(connectionsCounter)
      ensures IsEmptyConnection(flow) && CounterKey(flow.host).Some? ==>
        var h := CounterKey(flow.host).value;
        var counted := (if h in old(connectionsCounter) then old(connectionsCounter)[h] else [])
          + [(flow.uid, flow.starttime)];
        && r.Some?
        && (r.value <==> h in old(connectionsCounter) && |old(connectionsCounter)[h]| == EMPTY_CONNECTIONS_THRESHOLD - 1)
        && (r.value ==> uids == ConnectionUids(counted) && connectionsCounter == old(connectionsCounter)[h := []])
        && (!r.value ==> connectionsCounter == old(connectionsCounter)[h := counted])
    {
      r, uids := None, [];
      if flow.uri != "/" || flow.dport != 80 || flow.respFuids == [] {
        return;
      }
      var allDashes := true;
      var j := 0;
      while j < |flow.respFuids|
        invariant 0 <= j <= |flow.respFuids|
        invariant allDashes <==> forall k :: 0 <= k < j ==> flow.respFuids[k] == "-"
      {
        allDashes := allDashes && flow.respFuids[j] == "-";
        j := j + 1;
      }
      if !allDashes {
        return;
      }
      var hostToCheck: Option<nat> := None;
      var i := 0;
      while i < |EmptyConnectionHosts|
        invariant 0 <= i <= |EmptyConnectionHosts|
        invariant FirstHostFrom(flow.host, 0) == FirstHostFrom(flow.host, i)
      {
        if Contains(flow.host, EmptyConnectionHosts[i]) {
          hostToCheck := Some(i);
          break;
        }
        i := i + 1;
      }
      if hostToCheck.None? {
        return;
      }
      var h := EmptyConnectionHosts[hostToCheck.value];
      var detected;
      detected, uids := CountEmptyConnection(h, flow);
      r := Some(detected);
    }

    /**
     * The counting half of `check_multiple_empty_connections`: the flow is
     * added under its search host, and reaching the threshold reports the
     * counted uids and empties the host's list.
     */
    method CountEmptyConnection(h: string, flow: HttpFlow) returns (detected: bool, uids: seq<string>)
      requires Valid() && h in EmptyConnectionHosts
      modifies this`connectionsCounter
      ensures Valid()
      ensures var counted := (if h in old(connectionsCounter) then old(connectionsCounter)[h] else [])
          + [(flow.uid, flow.starttime)];
        && (detected <==> h in old(connectionsCounter) && |old(connectionsCounter)[h]| == EMPTY_CONNECTIONS_THRESHOLD - 1)
        && (detected ==> uids == ConnectionUids(counted) && connectionsCounter == old(connectionsCounter)[h := []])
        && (!detected ==> uids == [] && connectionsCounter == old(connectionsCounter)[h := counted])
    {
      ghost var before := connectionsCounter;
      ghost var counted := (if h in before then before[h] else []) + [(flow.uid, flow.starttime)];
      uids := [];
      if h !in connectionsCounter {
        connectionsCounter := connectionsCounter[h := []];
      }
      connectionsCounter := connectionsCounter[h := connectionsCounter[h] + [(flow.uid, flow.starttime)]];
      assert connectionsCounter == before[h := counted];
      if |connectionsCounter[h]| >= EMPTY_CONNECTIONS_THRESHOLD {
        uids := ConnectionUids(connectionsCounter[h]);
        connectionsCounter := connectionsCounter[h := []];
        CounterStaysSmall(before, h, []);
        return true, uids;
      }
      CounterStaysSmall(before, h, counted);
      detected := false;
    }

    /**
     * The cleanup in `main`: every server keeps its timestamps younger than
     * an hour, servers left with none are removed.
     */
    method CleanRecognizedFlows(now: int)
      modifies this`recognizedFlows
      ensures recognizedFlows == Cleaned(old(recognizedFlows), now)
    {
      var flows := recognizedFlows;
      var clean: map<(string, int), seq<int>> := map[];
      var garbage: seq<(string, int)> := [];
      var todo := flows.Keys;
      while todo != {}
        invariant todo <= flows.Keys
        invariant forall s :: s in clean <==> s in flows && s !in todo && Recent(flows[s], now) != []
        invariant forall s | s in clean :: clean[s] == Recent(flows[s], now)
        decreases |todo|
      {
        var s :| s in todo;
        var timestamps := Since(flows[s], Stamp, now - FLOW_MAX_AGE);
        if |timestamps| == 0 {
          garbage := garbage + [s];
        } else {
          clean := clean[s := timestamps];
        }
        todo := todo - {s};
      }
      var i := 0;
      while i < |garbage|
        invariant 0 <= i <= |garbage|
      {
        recognizedFlows := recognizedFlows - {garbage[i]};
        i := i + 1;
      }
      recognizedFlows := clean;
      assert clean.Keys == Cleaned(flows, now).Keys;
    }

    /**
     * The `new_flow` branch of `main`: a GET with a destination address and
     * port records its start time under that server, and once more than
     * 600 seconds have passed since the last cleanup the table is cleaned.
     */
    method RecordRecognizedFlow(flow: ConnFlow, now: int)
      requires Valid()
      modifies this`recognizedFlows, this`lastCleanup
      ensures Valid()
      ensures !(flow.verb == Some("GET") && flow.daddr.Some? && flow.dport.Some?) ==>
        recognizedFlows == old(recognizedFlows) && lastCleanup == old(lastCleanup)
      ensures flow.verb == Some("GET") && flow.daddr.Some? && flow.dport.Some? ==>
        var added := WithStart(old(recognizedFlows), (flow.daddr.value, flow.dport.value), flow.starttime);
        if now - old(lastCleanup) > CLEANUP_INTERVAL
        then recognizedFlows == Cleaned(added, now) && lastCleanup == now
        else recognizedFlows == added && lastCleanup == old(lastCleanup)
    {
      if flow.verb.None? || flow.verb.value != "GET" {
        return;
      }
      if flow.dport.None? || flow.daddr.None? {
        return;
      }
      var server := (flow.daddr.value, flow.dport.value);
      if server !in recognizedFlows {
        recognizedFlows := recognizedFlows[server := []];
      }
      recognizedFlows := recognizedFlows[server := recognizedFlows[server] + [flow.starttime]];
      assert recognizedFlows == WithStart(old(recognizedFlows), server, flow.starttime);
      WithStartNonEmpty(old(recognizedFlows), server, flow.starttime);
      if now - lastCleanup > CLEANUP_INTERVAL {
        CleanRecognizedFlows(now);
        lastCleanup := now;
      }
    }

    /** `check_multiple_empty_connections` with the evidence it sets: one item exactly on detection. */
    method RaiseEmptyConnections(flow: HttpFlow) returns (ev: seq<Evidence>)
      requires Valid()
      modifies this`connectionsCounter
      ensures Valid()
      ensures connectionsCounter == AfterEmpty(old(connectionsCounter), flow)
      ensures ev == if EmptyRaised(old(connectionsCounter), flow) then [EmptyEvidence(old(connectionsCounter), flow)] else []
    {
      ghost var counter := connectionsCounter;
      var empty, uids := CheckMultipleEmptyConnections(flow);
      EmptyOutcome(counter, flow, empty, uids, connectionsCounter);
      ev := if empty == Some(true) then [MultipleEmptyConnections(uids)] else [];
    }

    /** `check_password_guessing` with the evidence it sets: one item exactly on detection. */
    method RaisePasswordGuessing(flow: HttpFlow, now: int) returns (ev: seq<Evidence>)
      requires Valid()
      modifies this`loginAttempts
      ensures Valid()
      ensures loginAttempts == AfterLogin(old(loginAttempts), flow, now)
      ensures ev == if GuessingRaised(old(loginAttempts), flow, now) then [GuessingEvidence(old(loginAttempts), flow, now)] else []
    {
      ghost var attempts := loginAttempts;
      var guessed, uids, count := CheckPasswordGuessing(flow, now);
      GuessingOutcome(attempts, flow, now, guessed, uids, count, loginAttempts);
      ev := if guessed then [PasswordGuessing(uids, count)] else [];
    }

    /**
     * The `new_http` branch of `main`, without the user-agent lookups: the
     * detectors run in the source's order and the evidence they raise is
     * collected, ending with the HTTP-traffic evidence every flow gets.
     */
    method HandleHttp(flow: HttpFlow, now: int) returns (evidence: seq<Evidence>)
      requires Valid()
      modifies this`loginAttempts, this`connectionsCounter
      ensures Valid()
      ensures evidence == FlowEvidence(flow, now, pastebinThreshold, old(loginAttempts), old(connectionsCounter))
      ensures loginAttempts == AfterLogin(old(loginAttempts), flow, now)
      ensures connectionsCounter == AfterEmpty(old(connectionsCounter), flow)
    {
      var userAgent: seq<Evidence> := if IsSuspiciousUserAgent(flow.userAgent) then [SuspiciousUserAgent] else [];
      var emptyConnections := RaiseEmptyConnections(flow);
      var executable: seq<Evidence> := if ExecutableMimeIn(flow.respMimeTypes) then [ExecutableMimeType] else [];
      var pastebin: seq<Evidence> := if IsPastebinDownload(flow, pastebinThreshold) then [PastebinDownload] else [];
      var guessing := RaisePasswordGuessing(flow, now);
      evidence := userAgent + emptyConnections + executable + pastebin + guessing + [HttpTraffic];
    }
  }
}
