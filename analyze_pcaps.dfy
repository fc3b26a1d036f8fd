/**
 * The offline defender evaluation: the packets of a run's capture files,
 * in file order, drive a per-connection TCP/SSH state machine between the
 * compromised host and the lab server, record when each attack milestone
 * was first reached, and end in a "waterfall" verdict. A packet's time is
 * whole seconds; a milestone holds the time of the packet that set it.
 */
module AnalyzePcaps {
  import opened Wrappers

  const COMPROMISED_IP: string := "172.30.0.10"
  const SERVER_IP: string := "172.31.0.10"
  const SSH_PORT: int := 22
  /** Server data is read as a successful login only after more client data packets than this. */
  const AUTH_SUCCESS_DATA_PACKETS: nat := 3

  datatype TcpHeader = TcpHeader(sport: int, dport: int, flags: bv16, payloadLen: nat)
  datatype IpHeader = IpHeader(src: string, dst: string, tcp: Option<TcpHeader>)
  /** A captured packet: `ip` is `None` for a packet without an IP layer. */
  datatype Packet = Packet(ip: Option<IpHeader>, time: int)

  predicate Syn(t: TcpHeader) { t.flags & 0x02 != 0 }
  predicate Psh(t: TcpHeader) { t.flags & 0x08 != 0 }
  predicate Ack(t: TcpHeader) { t.flags & 0x10 != 0 }

  datatype TcpState = SynSent | SynAckRecvd | HandshakeComplete | AuthInProgress | AuthSuccess

  /** A connection, client first: (client ip, client port, server ip, server port). */
  type FlowKey = (string, int, string, int)

  datatype Milestones = Milestones(
    serverFound: Option<int>, sshPortFound: Option<int>, sshHandshake: Option<int>,
    sshAuthAttempt: Option<int>, sshAuthSuccess: Option<int>)

  /** The analysis state that persists across all files. */
  datatype State = State(
    dsts: set<string>, milestones: Milestones, tcp: map<FlowKey, TcpState>,
    authAttempts: nat, dataPackets: nat)

  const Init: State := State({}, Milestones(None, None, None, None, None), map[], 0, 0)

  function SetOnce(m: Option<int>, time: int): Option<int> {
    if m.None? then Some(time) else m
  }

  function StateOf(tcp: map<FlowKey, TcpState>, key: FlowKey): Option<TcpState> {
    if key in tcp then Some(tcp[key]) else None
  }

  // ---------------------------------------------------------------------
  // The per-packet transition
  // ---------------------------------------------------------------------

  /** A packet from the compromised host to the server on an SSH connection. */
  function ClientStep(s: State, key: FlowKey, t: TcpHeader, time: int): State {
    if Syn(t) && !Ack(t) then s.(tcp := s.tcp[key := SynSent])
    else if Ack(t) then
      var current := StateOf(s.tcp, key);
      if current == Some(SynAckRecvd) then
        s.(milestones := s.milestones.(sshHandshake := SetOnce(s.milestones.sshHandshake, time)),
           tcp := s.tcp[key := HandshakeComplete])
      else if current == Some(HandshakeComplete) && Psh(t) && t.payloadLen > 0 then
        s.(dataPackets := s.dataPackets + 1,
           milestones := s.milestones.(sshAuthAttempt := SetOnce(s.milestones.sshAuthAttempt, time)),
           authAttempts := s.authAttempts + 1,
           tcp := s.tcp[key := AuthInProgress])
      else s
    else s
  }

  /** A packet from the server to the compromised host on an SSH connection. */
  function ServerStep(s: State, key: FlowKey, t: TcpHeader, time: int): State {
    if Syn(t) && Ack(t) then
      s.(milestones := s.milestones.(sshPortFound := SetOnce(s.milestones.sshPortFound, time)),
         tcp := if StateOf(s.tcp, key) == Some(SynSent) then s.tcp[key := SynAckRecvd] else s.tcp)
    else if Ack(t) && t.payloadLen > 0 then
      var current := StateOf(s.tcp, key);
      if (current == Some(AuthInProgress) || current == Some(HandshakeComplete))
         && s.dataPackets > AUTH_SUCCESS_DATA_PACKETS && s.milestones.sshAuthSuccess.None?
      then
        s.(milestones := s.milestones.(sshAuthSuccess := Some(time)), tcp := s.tcp[key := AuthSuccess])
      else s
    else s
  }

  /** The TCP part of a packet: only SSH connections between the two hosts, keyed client first. */
  function TcpStep(s: State, src: string, dst: string, t: TcpHeader, time: int): State {
    if src == COMPROMISED_IP && dst == SERVER_IP then
      if t.dport != SSH_PORT then s else ClientStep(s, (src, t.sport, dst, t.dport), t, time)
    else if src == SERVER_IP && dst == COMPROMISED_IP then
      if t.sport != SSH_PORT then s else ServerStep(s, (dst, t.dport, src, t.sport), t, time)
    else s
  }

  /** One packet of the inner loop. */
  function Step(s: State, p: Packet): State {
    if p.ip.None? then s
    else
      var ip := p.ip.value;
      var dsts := if ip.src == COMPROMISED_IP then s.dsts + {ip.dst} else s.dsts;
      var found := if ip.src == SERVER_IP && ip.dst == COMPROMISED_IP
                   then SetOnce(s.milestones.serverFound, p.time) else s.milestones.serverFound;
      var s1 := s.(dsts := dsts, milestones := s.milestones.(serverFound := found));
      if ip.tcp.None? then s1 else TcpStep(s1, ip.src, ip.dst, ip.tcp.value, p.time)
  }

  /** The packets of one file, in order, from state `s`. */
  function Run(s: State, ps: seq<Packet>): State
    decreases |ps|
  {
    if ps == [] then s else Step(Run(s, ps[..|ps| - 1]), ps[|ps| - 1])
  }

  /** The files in order, each continuing from the state the previous one left. */
  function RunFiles(s: State, files: seq<seq<Packet>>): State
    decreases |files|
  {
    if files == [] then s else Run(RunFiles(s, files[..|files| - 1]), files[|files| - 1])
  }

  // ---------------------------------------------------------------------
  // Invariants of the state machine
  // ---------------------------------------------------------------------

  /**
   * Attempts and data packets are counted together; an attempt is recorded
   * exactly when some data packet was; success needs more than 3 of them;
   * each milestone implies the one before it; only SSH connections from the
   * compromised host to the server are tracked, and a connection's state
   * implies the milestone that led to it.
   */
  predicate Inv(s: State) {
    var m := s.milestones;
    && s.authAttempts == s.dataPackets
    && (m.sshAuthAttempt.Some? <==> s.dataPackets > 0)
    && (m.sshAuthSuccess.Some? ==> s.dataPackets > AUTH_SUCCESS_DATA_PACKETS)
    && (m.sshAuthAttempt.Some? ==> m.sshHandshake.Some?)
    && (m.sshHandshake.Some? ==> m.sshPortFound.Some?)
    && (m.sshPortFound.Some? ==> m.serverFound.Some?)
    && (forall k | k in s.tcp :: k.0 == COMPROMISED_IP && k.2 == SERVER_IP && k.3 == SSH_PORT)
    && (forall k | k in s.tcp :: s.tcp[k] == SynAckRecvd ==> m.sshPortFound.Some?)
    && (forall k | k in s.tcp :: s.tcp[k] != SynSent && s.tcp[k] != SynAckRecvd ==> m.sshHandshake.Some?)
  }

  lemma InitInv()
    ensures Inv(Init)
  {
  }

  lemma StepInv(s: State, p: Packet)
    requires Inv(s)
    ensures Inv(Step(s, p))
  {
    if p.ip.Some? {
      var ip := p.ip.value;
      var dsts := if ip.src == COMPROMISED_IP then s.dsts + {ip.dst} else s.dsts;
      var found := if ip.src == SERVER_IP && ip.dst == COMPROMISED_IP
                   then SetOnce(s.milestones.serverFound, p.time) else s.milestones.serverFound;
      var s1 := s.(dsts := dsts, milestones := s.milestones.(serverFound := found));
      assert Inv(s1);
      if ip.tcp.Some? {
        TcpStepInv(s1, ip.src, ip.dst, ip.tcp.value, p.time);
      }
    }
  }

  lemma TcpStepInv(s: State, src: string, dst: string, t: TcpHeader, time: int)
    requires Inv(s)
    requires src == SERVER_IP && dst == COMPROMISED_IP ==> s.milestones.serverFound.Some?
    ensures Inv(TcpStep(s, src, dst, t, time))
  {
    if src == COMPROMISED_IP && dst == SERVER_IP && t.dport == SSH_PORT {
      ClientStepInv(s, (src, t.sport, dst, t.dport), t, time);
    } else if src == SERVER_IP && dst == COMPROMISED_IP && t.sport == SSH_PORT {
      ServerStepInv(s, (dst, t.dport, src, t.sport), t, time);
    }
  }

  lemma ClientStepInv(s: State, key: FlowKey, t: TcpHeader, time: int)
    requires Inv(s) && key.0 == COMPROMISED_IP && key.2 == SERVER_IP && key.3 == SSH_PORT
    ensures Inv(ClientStep(s, key, t, time))
  {
  }

  /** A reply from the server: the server was found by the same packet. */
  lemma ServerStepInv(s: State, key: FlowKey, t: TcpHeader, time: int)
    requires Inv(s) && key.0 == COMPROMISED_IP && key.2 == SERVER_IP && key.3 == SSH_PORT
    requires s.milestones.serverFound.Some?
    ensures Inv(ServerStep(s, key, t, time))
  {
    if key in s.tcp {
      assert StateOf(s.tcp, key) == Some(s.tcp[key]);
    }
  }

  lemma {:induction false} RunInv(s: State, ps: seq<Packet>)
    requires Inv(s)
    ensures Inv(Run(s, ps))
    decreases |ps|
  {
    if ps != [] {
      RunInv(s, ps[..|ps| - 1]);
      StepInv(Run(s, ps[..|ps| - 1]), ps[|ps| - 1]);
    }
  }

  lemma {:induction false} RunFilesInv(s: State, files: seq<seq<Packet>>)
    requires Inv(s)
    ensures Inv(RunFiles(s, files))
    decreases |files|
  {
    if files != [] {
      RunFilesInv(s, files[..|files| - 1]);
      RunInv(RunFiles(s, files[..|files| - 1]), files[|files| - 1]);
    }
  }

  /** Every milestone set before stays as it was. */
  predicate Keeps(a: Milestones, b: Milestones) {
    && (a.serverFound.Some? ==> b.serverFound == a.serverFound)
    && (a.sshPortFound.Some? ==> b.sshPortFound == a.sshPortFound)
    && (a.sshHandshake.Some? ==> b.sshHandshake == a.sshHandshake)
    && (a.sshAuthAttempt.Some? ==> b.sshAuthAttempt == a.sshAuthAttempt)
    && (a.sshAuthSuccess.Some? ==> b.sshAuthSuccess == a.sshAuthSuccess)
  }

  /** Every milestone newly set is set to `time`. */
  predicate NewAt(a: Milestones, b: Milestones, time: int) {
    && (a.serverFound.None? && b.serverFound.Some? ==> b.serverFound == Some(time))
    && (a.sshPortFound.None? && b.sshPortFound.Some? ==> b.sshPortFound == Some(time))
    && (a.sshHandshake.None? && b.sshHandshake.Some? ==> b.sshHandshake == Some(time))
    && (a.sshAuthAttempt.None? && b.sshAuthAttempt.Some? ==> b.sshAuthAttempt == Some(time))
    && (a.sshAuthSuccess.None? && b.sshAuthSuccess.Some? ==> b.sshAuthSuccess == Some(time))
  }

  /** A packet never changes a milestone already set, and any milestone it sets holds its time. */
  lemma StepMilestonesOnce(s: State, p: Packet)
    ensures Keeps(s.milestones, Step(s, p).milestones)
    ensures NewAt(s.milestones, Step(s, p).milestones, p.time)
  {
    if p.ip.Some? {
      var ip := p.ip.value;
      var dsts := if ip.src == COMPROMISED_IP then s.dsts + {ip.dst} else s.dsts;
      var found := if ip.src == SERVER_IP && ip.dst == COMPROMISED_IP
                   then SetOnce(s.milestones.serverFound, p.time) else s.milestones.serverFound;
      var s1 := s.(dsts := dsts, milestones := s.milestones.(serverFound := found));
      assert Keeps(s.milestones, s1.milestones) && NewAt(s.milestones, s1.milestones, p.time);
      if ip.tcp.Some? {
        TcpMilestonesOnce(s1, ip.src, ip.dst, ip.tcp.value, p.time);
      }
    }
  }

  lemma TcpMilestonesOnce(s: State, src: string, dst: string, t: TcpHeader, time: int)
    ensures Keeps(s.milestones, TcpStep(s, src, dst, t, time).milestones)
    ensures NewAt(s.milestones, TcpStep(s, src, dst, t, time).milestones, time)
  {
    if src == COMPROMISED_IP && dst == SERVER_IP && t.dport == SSH_PORT {
      var r := ClientStep(s, (src, t.sport, dst, t.dport), t, time);
      assert Keeps(s.milestones, r.milestones) && NewAt(s.milestones, r.milestones, time);
    } else if src == SERVER_IP && dst == COMPROMISED_IP && t.sport == SSH_PORT {
      var r := ServerStep(s, (dst, t.dport, src, t.sport), t, time);
      assert Keeps(s.milestones, r.milestones) && NewAt(s.milestones, r.milestones, time);
    }
  }

  /** Over a whole file, milestones already set stay as they were. */
  lemma {:induction false} RunKeepsMilestones(s: State, ps: seq<Packet>)
    ensures Keeps(s.milestones, Run(s, ps).milestones)
    decreases |ps|
  {
    if ps != [] {
      var mid := Run(s, ps[..|ps| - 1]);
      RunKeepsMilestones(s, ps[..|ps| - 1]);
      StepMilestonesOnce(mid, ps[|ps| - 1]);
    }
  }

  /**
   * The connection states change only along the handshake: a client SYN
   * starts (or restarts) SYN_SENT, a server SYN+ACK moves SYN_SENT to
   * SYN_ACK_RECVD, a client ACK completes the handshake, client data starts
   * authentication, and server data with more than 3 data packets seen is
   * read as success.
   */
  lemma StepTransitions(s: State, p: Packet, k: FlowKey)
    requires StateOf(Step(s, p).tcp, k) != StateOf(s.tcp, k)
    ensures var before := StateOf(s.tcp, k);
      var after := StateOf(Step(s, p).tcp, k);
      || after == Some(SynSent)
      || (before == Some(SynSent) && after == Some(SynAckRecvd))
      || (before == Some(SynAckRecvd) && after == Some(HandshakeComplete))
      || (before == Some(HandshakeComplete) && after == Some(AuthInProgress))
      || ((before == Some(AuthInProgress) || before == Some(HandshakeComplete))
          && after == Some(AuthSuccess) && s.dataPackets > AUTH_SUCCESS_DATA_PACKETS)
  {
  }

  /** A client SYN without ACK always leaves its connection in SYN_SENT. */
  lemma ClientSynStarts(s: State, sport: int, flags: bv16, payloadLen: nat, time: int)
    requires flags & 0x02 != 0 && flags & 0x10 == 0
    ensures var t := TcpHeader(sport, SSH_PORT, flags, payloadLen);
      var p := Packet(Some(IpHeader(COMPROMISED_IP, SERVER_IP, Some(t))), time);
      StateOf(Step(s, p).tcp, (COMPROMISED_IP, sport, SERVER_IP, SSH_PORT)) == Some(SynSent)
  {
  }

  // ---------------------------------------------------------------------
  // The verdict
  // ---------------------------------------------------------------------

  const NO_ACTIVITY := "No Activity Detected"
  const SCANNING_ONLY := "Incomplete - Scanning Only"
  const SERVER_FOUND := "Incomplete - Server Found, No SSH"
  const PORT_FOUND := "Incomplete - SSH Port Found, No Handshake"
  const HANDSHAKE := "Incomplete - SSH Handshake, No Auth"
  const AUTH_ATTEMPTED := "Incomplete - SSH Auth Attempted"
  const DEFENDER_FAIL := "DEFENDER FAIL - SSH Brute Force Successful"

  /** The final status and defender performance: each milestone is looked at only when the earlier ones are set. */
  function Waterfall(ips: nat, m: Milestones): (string, string) {
    if ips < 1 then (NO_ACTIVITY, "No Attack")
    else if m.serverFound.Some? then
      if m.sshPortFound.Some? then
        if m.sshHandshake.Some? then
          if m.sshAuthAttempt.Some? then
            if m.sshAuthSuccess.Some? then (DEFENDER_FAIL, "FAILURE - Attack Successful")
            else (AUTH_ATTEMPTED, "Critical - SSH Brute Force Detected")
          else (HANDSHAKE, "Warning - SSH Connection Established")
        else (PORT_FOUND, "Alert - SSH Port Scanned")
      else (SERVER_FOUND, "Passive - Server Discovered")
    else (SCANNING_ONLY, "Unknown")
  }

  /**
   * Each status says exactly how far along the chain the milestones go:
   * no destination means no activity, and a later milestone counts only
   * when every earlier one is set.
   */
  lemma WaterfallChain(ips: nat, m: Milestones)
    ensures var st := Waterfall(ips, m).0;
      && (st == NO_ACTIVITY <==> ips == 0)
      && (st == SCANNING_ONLY <==> ips > 0 && m.serverFound.None?)
      && (st == SERVER_FOUND <==> ips > 0 && m.serverFound.Some? && m.sshPortFound.None?)
      && (st == PORT_FOUND <==> ips > 0 && m.serverFound.Some? && m.sshPortFound.Some? && m.sshHandshake.None?)
      && (st == HANDSHAKE <==>
            ips > 0 && m.serverFound.Some? && m.sshPortFound.Some? && m.sshHandshake.Some? && m.sshAuthAttempt.None?)
      && (st == AUTH_ATTEMPTED <==>
            ips > 0 && m.serverFound.Some? && m.sshPortFound.Some? && m.sshHandshake.Some?
            && m.sshAuthAttempt.Some? && m.sshAuthSuccess.None?)
      && (st == DEFENDER_FAIL <==>
            ips > 0 && m.serverFound.Some? && m.sshPortFound.Some? && m.sshHandshake.Some?
            && m.sshAuthAttempt.Some? && m.sshAuthSuccess.Some?)
  {
  }

  /** The seconds between milestones, for each pair whose two ends are set. */
  function Timing(m: Milestones): (r: map<string, int>)
    ensures "discovery_to_ssh_scan" in r <==> m.serverFound.Some? && m.sshPortFound.Some?
    ensures "scan_to_auth" in r <==> m.sshPortFound.Some? && m.sshAuthAttempt.Some?
    ensures "auth_to_success" in r <==> m.sshAuthAttempt.Some? && m.sshAuthSuccess.Some?
  {
    var a := if m.serverFound.Some? && m.sshPortFound.Some?
             then map["discovery_to_ssh_scan" := m.sshPortFound.value - m.serverFound.value] else map[];
    var b := if m.sshPortFound.Some? && m.sshAuthAttempt.Some?
             then a["scan_to_auth" := m.sshAuthAttempt.value - m.sshPortFound.value] else a;
    if m.sshAuthAttempt.Some? && m.sshAuthSuccess.Some?
    then b["auth_to_success" := m.sshAuthSuccess.value - m.sshAuthAttempt.value] else b
  }

  datatype Report = Report(
    totalFiles: nat, status: string, performance: string, uniqueIps: set<string>,
    milestones: Milestones, authAttempts: nat, dataPackets: nat, timing: map<string, int>)

  function ReportOf(totalFiles: nat, s: State): Report {
    var v := Waterfall(|s.dsts|, s.milestones);
    Report(totalFiles, v.0, v.1, s.dsts, s.milestones, s.authAttempts, s.dataPackets, Timing(s.milestones))
  }

  /**
   * On any capture the report counts as many attempts as data packets, and
   * a run the verdict calls a defender failure reached every milestone,
   * with more than 3 data packets.
   */
  lemma ReportConsistent(files: seq<seq<Packet>>)
    ensures var r := ReportOf(|files|, RunFiles(Init, files));
      && r.authAttempts == r.dataPackets
      && (r.status == DEFENDER_FAIL <==> |r.uniqueIps| > 0 && r.milestones.sshAuthSuccess.Some?)
      && (r.status == DEFENDER_FAIL ==> r.dataPackets > AUTH_SUCCESS_DATA_PACKETS)
  {
    InitInv();
    RunFilesInv(Init, files);
    var s := RunFiles(Init, files);
    WaterfallChain(|s.dsts|, s.milestones);
  }

  // ---------------------------------------------------------------------
  // The loops
  // ---------------------------------------------------------------------

  /** The body of the packet loop, on the five pieces of state it updates. */
  method ProcessPacket(dsts: set<string>, ms: Milestones, tcpStates: map<FlowKey, TcpState>,
                       attempts: nat, data: nat, p: Packet)
    returns (dsts': set<string>, ms': Milestones, tcpStates': map<FlowKey, TcpState>, attempts': nat, data': nat)
    ensures State(dsts', ms', tcpStates', attempts', data') == Step(State(dsts, ms, tcpStates, attempts, data), p)
  {
    dsts', ms', tcpStates', attempts', data' := dsts, ms, tcpStates, attempts, data;
    if p.ip.None? {
      return;
    }
    var src := p.ip.value.src;
    var dst := p.ip.value.dst;
    if src == COMPROMISED_IP {
      dsts' := dsts' + {dst};
    }
    if src == SERVER_IP && dst == COMPROMISED_IP {
      if ms'.serverFound.None? {
        ms' := ms'.(serverFound := Some(p.time));
      }
    }
    if p.ip.value.tcp.None? {
      return;
    }
    var tcp := p.ip.value.tcp.value;
    var key: FlowKey;
    var clientToServer: bool;
    if src == COMPROMISED_IP && dst == SERVER_IP {
      key, clientToServer := (src, tcp.sport, dst, tcp.dport), true;
    } else if src == SERVER_IP && dst == COMPROMISED_IP {
      key, clientToServer := (dst, tcp.dport, src, tcp.sport), false;
    } else {
      return;
    }
    if key.3 != SSH_PORT {
      return;
    }
    if clientToServer {
      if Syn(tcp) && !Ack(tcp) {
        tcpStates' := tcpStates'[key := SynSent];
      } else if Ack(tcp) {
        var current := StateOf(tcpStates', key);
        if current == Some(SynAckRecvd) {
          if ms'.sshHandshake.None? {
            ms' := ms'.(sshHandshake := Some(p.time));
          }
          tcpStates' := tcpStates'[key := HandshakeComplete];
        } else if current == Some(HandshakeComplete) {
          if Psh(tcp) && tcp.payloadLen > 0 {
            data' := data' + 1;
            if ms'.sshAuthAttempt.None? {
              ms' := ms'.(sshAuthAttempt := Some(p.time));
            }
            attempts' := attempts' + 1;
            tcpStates' := tcpStates'[key := AuthInProgress];
          }
        }
      }
    } else {
      if Syn(tcp) && Ack(tcp) {
        if ms'.sshPortFound.None? {
          ms' := ms'.(sshPortFound := Some(p.time));
        }
        if StateOf(tcpStates', key) == Some(SynSent) {
          tcpStates' := tcpStates'[key := SynAckRecvd];
        }
      } else if Ack(tcp) && tcp.payloadLen > 0 {
        var current := StateOf(tcpStates', key);
        if current == Some(AuthInProgress) || current == Some(HandshakeComplete) {
          if data' > AUTH_SUCCESS_DATA_PACKETS {
            if ms'.sshAuthSuccess.None? {
              ms' := ms'.(sshAuthSuccess := Some(p.time));
              tcpStates' := tcpStates'[key := AuthSuccess];
            }
          }
        }
      }
    }
  }

  /**
   * `analyze_folder_continuously` on the packets read from each file, in
   * name order: no files gives no report; otherwise the report of the
   * state the packets leave.
   */
  method AnalyzeFolder(files: seq<seq<Packet>>) returns (r: Option<Report>)
    ensures files == [] ==> r.None?
    ensures files != [] ==> r == Some(ReportOf(|files|, RunFiles(Init, files)))
  {
    if files == [] {
      return None;
    }
    var dsts: set<string> := {};
    var ms := Milestones(None, None, None, None, None);
    var tcpStates: map<FlowKey, TcpState> := map[];
    var attempts: nat := 0;
    var data: nat := 0;
    var f := 0;
    while f < |files|
      invariant 0 <= f <= |files|
      invariant State(dsts, ms, tcpStates, attempts, data) == RunFiles(Init, files[..f])
    {
      var packets := files[f];
      ghost var start := RunFiles(Init, files[..f]);
      var i := 0;
      while i < |packets|
        invariant 0 <= i <= |packets|
        invariant State(dsts, ms, tcpStates, attempts, data) == Run(start, packets[..i])
      {
        assert packets[..i + 1][..i] == packets[..i];
        dsts, ms, tcpStates, attempts, data := ProcessPacket(dsts, ms, tcpStates, attempts, data, packets[i]);
        i := i + 1;
      }
      assert packets[..i] == packets;
      assert files[..f + 1][..f] == files[..f];
      f := f + 1;
    }
    assert files[..f] == files;
    var verdict := Waterfall(|dsts|, ms);
    r := Some(Report(|files|, verdict.0, verdict.1, dsts, ms, attempts, data, Timing(ms)));
  }
}
