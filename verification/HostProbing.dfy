/**
 * Probing for host names over whole runs. A round for new services asks for no host, yet their hosts' addresses are
 * announced after it; this device's own name has always been asked for by then, another host's need not have been.
 */
module HostProbing {
  import opened Basics
  import opened ServiceLists
  import opened TxProtocol
  import opened Probing

  /** The responder, with all that each port has sent since it last got its socket or the device its name. */
  datatype Heard = Heard(net: Net, sent: map<Port, seq<Sent>>)

  function SentSince(h: Heard, m: Net, op: Probing.Op, port: Port): seq<Sent>
    requires port in h.sent
  {
    var n := h.net;
    if op.RestartAll? || (port in m.ready && port !in n.ready) then []
    else if op.Send? && n.queue != [] && PortOf(n.queue[0]) == port && n.queue[0].id in n.payloads then
      h.sent[port] + [Sent(n.now, n.payloads[n.queue[0].id])]
    else h.sent[port]
  }

  ghost function Step(h: Heard, op: Probing.Op): Heard
    requires Probing.OpOk(h.net, op)
  {
    var m := Probing.Apply(h.net, op);
    Heard(m, map port <- h.sent :: SentSince(h, m, op, port))
  }

  /** Three probes in a row that ask for the host, each more than 250 ms after the one before. */
  predicate RoundFor(sent: seq<Sent>, i: nat, host: nat) {
    && i + 3 <= |sent|
    && (forall k :: i <= k < i + 3 ==> AsksForHost(sent[k].payload, host))
    && sent[i + 1].at > sent[i].at + PROBE_GAP && sent[i + 2].at > sent[i + 1].at + PROBE_GAP
  }

  predicate AsksForHost(p: Payload, host: nat) {
    p.Probe? && host in p.hosts
  }

  ghost predicate Asked(sent: seq<Sent>, host: nat) {
    exists i: nat :: RoundFor(sent, i, host)
  }

  lemma AskedStays(sent: seq<Sent>, x: Sent, host: nat)
    ensures Asked(sent, host) ==> Asked(sent + [x], host)
    ensures !AsksForHost(x.payload, host) ==> (Asked(sent, host) <==> Asked(sent + [x], host))
  {
    if Asked(sent, host) {
      var i: nat :| RoundFor(sent, i, host);
      assert RoundFor(sent + [x], i, host);
    }
    if !AsksForHost(x.payload, host) && Asked(sent + [x], host) {
      var i: nat :| RoundFor(sent + [x], i, host);
      assert (sent + [x])[|sent|] == x;
      assert RoundFor(sent, i, host);
    }
  }

  /** A completed round is such three probes, for each host it asked for. */
  lemma RoundAsks(sent: seq<Sent>, round: seq<Sent>, services: seq<Service>, hosts: set<nat>, exact: bool, host: nat)
    requires ProbedFor(round, 3, services, hosts, exact) && EndsIn(sent, round) && host in hosts
    ensures Asked(sent, host)
  {
    var i := |sent| - 3;
    forall k | 0 <= k < 3
      ensures sent[i + k] == round[k] && Offers(round[k].payload, services, hosts)
    {
      assert sent[|sent| - |round|..][k] == round[k];
    }
    assert round[0 + 1].at > round[0].at + PROBE_GAP && round[1 + 1].at > round[1].at + PROBE_GAP;
    assert RoundFor(sent, i, host);
  }

  predicate EndsIn(sent: seq<Sent>, round: seq<Sent>) {
    |round| <= |sent| && sent[|sent| - |round|..] == round
  }

  lemma EndsInStill(sent: seq<Sent>, round: seq<Sent>, x: Sent)
    requires EndsIn(sent, round)
    ensures EndsIn(sent + [x], round + [x])
  {
  }

  /**
   * On a named device a ready port is in a round about hosts or has had one for this device; what it has sent
   * in its round is the last it sent.
   */
  ghost predicate HostOk(n: Net, sent: seq<Sent>, port: Port)
    requires port in n.pcbs && port in n.rounds
  {
    n.named && port in n.ready ==>
      if Asking(n.pcbs[port].state) then (n.pcbs[port].ip || Asked(sent, SELF)) && EndsIn(sent, n.rounds[port])
      else Asked(sent, SELF)
  }

  // ---------------------------------------------------------------- what the operations do to a port

  /** Nothing that matters, except that a round without host questions may have ended early. */
  ghost predicate Stayed(n: Net, m: Net, port: Port)
    requires port in n.pcbs && port in n.rounds && port in m.pcbs && port in m.rounds
  {
    && port in n.ready && m.pcbs[port].ip == n.pcbs[port].ip && m.rounds[port] == n.rounds[port]
    && (Asking(m.pcbs[port].state) ==> Asking(n.pcbs[port].state))
    && (Asking(n.pcbs[port].state) && !Asking(m.pcbs[port].state) ==> !n.pcbs[port].ip)
  }

  /** A new round, about hosts if the last was or `ip` says so. */
  ghost predicate Began(n: Net, m: Net, port: Port, ip: bool)
    requires port in n.pcbs && port in m.pcbs && port in m.rounds
  {
    Asking(m.pcbs[port].state) && m.rounds[port] == [] && (n.pcbs[port].ip || ip ==> m.pcbs[port].ip)
  }

  /** What an operation other than sending does to a port: about hosts again if it has lost what it sent. */
  ghost predicate Moved(n: Net, m: Net, port: Port, afresh: bool)
    requires port in n.pcbs && port in n.rounds && port in m.pcbs && port in m.rounds
  {
    m.named && port in m.ready ==>
      if afresh then Began(n, m, port, true)
      else n.named && port in n.ready && (Stayed(n, m, port) || Began(n, m, port, false))
  }

  lemma MovedKeeps(n: Net, m: Net, sent: seq<Sent>, port: Port, afresh: bool)
    requires port in n.pcbs && port in n.rounds && port in m.pcbs && port in m.rounds
    requires HostOk(n, sent, port) && Moved(n, m, port, afresh)
    ensures HostOk(m, if afresh then [] else sent, port)
  {
  }

  lemma StartMoves(n: Net, q: Port, services: seq<Service>, ip: bool, jitter: nat, port: Port) returns (m: Net)
    requires q in n.pcbs && port in n.pcbs && port in n.rounds
    ensures m == StartProbe(n, q, services, ip, jitter) && m.ready == n.ready && m.named == n.named
    ensures port in m.pcbs && port in m.rounds
    ensures port != q ==> m.pcbs[port] == n.pcbs[port] && m.rounds[port] == n.rounds[port]
    ensures port == q && n.named ==> Began(n, m, port, ip)
  {
    m := StartProbe(n, q, services, ip, jitter);
  }

  lemma AnnounceMoves(n: Net, q: Port, services: seq<Service>, ip: bool, jitter: nat, port: Port) returns (m: Net)
    requires q in n.pcbs && port in n.pcbs && port in n.rounds
    ensures m == Announce(n, q, services, ip, jitter) && m.ready == n.ready && m.named == n.named
    ensures port in m.pcbs && port in m.rounds
    ensures port in n.ready && n.named ==> Stayed(n, m, port) || Began(n, m, port, ip)
  {
    m := Announce(n, q, services, ip, jitter);
    if q in n.ready && IsProbing(n.pcbs[q].state) {
      m := StartMoves(n, q, services, ip, jitter, port);
    }
  }

  lemma {:induction false} ProbeEachMoves(n: Net, jobs: seq<Job>, services: seq<Service>, ip: bool, clear: bool,
                                          port: Port)
    returns (m: Net)
    requires port in n.pcbs && port in n.rounds
    ensures m == ProbeEach(n, jobs, services, ip, clear) && m.ready == n.ready && m.named == n.named
    ensures port in m.pcbs && port in m.rounds
    ensures (m.pcbs[port] == n.pcbs[port] && m.rounds[port] == n.rounds[port]) || !n.named || Began(n, m, port, ip)
    ensures n.named && port in n.ready && Visits(jobs, port) ==> Began(n, m, port, ip)
    decreases |jobs|
  {
    if jobs == [] {
      m := n;
    } else {
      var q, n1 := jobs[0].port, n;
      if q in n.pcbs && q in n.ready {
        n1 := StartMoves(if clear then Forgotten(n, q) else n, q, services, ip, jobs[0].jitter, port);
        assert port == q && n.named ==> Began(n, n1, port, ip);
      }
      m := ProbeEachMoves(n1, jobs[1..], services, ip, clear, port);
      VisitedLater(jobs, port);
    }
  }

  lemma {:induction false} StripMoves(n: Net, todo: seq<Entry>, s: Service, port: Port) returns (m: Net)
    requires port in n.pcbs && port in n.rounds && port in n.ready
    ensures m == StripAll(n, todo, s) && m.ready == n.ready && m.named == n.named
    ensures port in m.pcbs && port in m.rounds && Stayed(n, m, port)
    decreases |todo|
  {
    if todo == [] || todo[0].id !in n.payloads || PortOf(todo[0]) !in n.pcbs {
      m := n;
    } else {
      m := StripMoves(StripPacket(n, todo[0], s), todo[1..], s, port);
    }
  }

  lemma {:induction false} StripReady(n: Net, todo: seq<Entry>, s: Service)
    ensures var m := StripAll(n, todo, s); m.ready == n.ready && m.named == n.named && m.rounds == n.rounds
    ensures n.pcbs.Keys <= StripAll(n, todo, s).pcbs.Keys
    decreases |todo|
  {
    if !(todo == [] || todo[0].id !in n.payloads || PortOf(todo[0]) !in n.pcbs) {
      StripReady(StripPacket(n, todo[0], s), todo[1..], s);
    }
  }

  ghost predicate Afresh(n: Net, m: Net, op: Probing.Op, port: Port) {
    op.RestartAll? || (port in m.ready && port !in n.ready)
  }

  lemma EnableMoves(n: Net, q: Port, opens: bool, services: seq<Service>, jitter: nat, port: Port) returns (m: Net)
    requires q in n.pcbs && port in n.pcbs && port in n.rounds
    ensures m == Enable(n, q, opens, services, jitter) && m.named == n.named
    ensures port in m.pcbs && port in m.rounds && (port in n.ready ==> port in m.ready)
    ensures n.named && port in m.ready ==>
              Began(n, m, port, true)
              || (port in n.ready && m.pcbs[port] == n.pcbs[port] && m.rounds[port] == n.rounds[port])
  {
    m := Enable(n, q, opens, services, jitter);
    if q in n.ready || opens {
      m := StartMoves(n.(ready := n.ready + {q}), q, services, true, jitter, port);
    }
  }

  lemma DisableMoves(n: Net, q: Port, other: Option<Port>, opens: bool, services: seq<Service>, jitter: nat, port: Port)
    returns (m: Net)
    requires q in n.pcbs && port in n.pcbs && port in n.rounds
    requires other.Some? ==> other.value in n.pcbs && other.value != q
    ensures m == Disable(n, q, other, opens, services, jitter) && m.named == n.named
    ensures port in m.pcbs && port in m.rounds
    ensures Moved(n, m, port, port in m.ready && port !in n.ready)
  {
    m := Disable(n, q, other, opens, services, jitter);
    if q in n.ready {
      var n1 := Deinit(n, q);
      if other.Some? && n1.pcbs[other.value].state.DUP? {
        var n2 := Became(n1, other.value, n1.pcbs[other.value].(state := OFF));
        m := EnableMoves(n2, other.value, opens, services, jitter, port);
      }
    }
  }

  lemma DuplicateMoves(n: Net, q: Port, other: Port, jitter: nat, port: Port) returns (m: Net)
    requires q in n.pcbs && other in n.pcbs && q != other && port in n.pcbs && port in n.rounds
    ensures m == SetDuplicate(n, q, other, jitter) && m.named == n.named && m.ready <= n.ready
    ensures port in m.pcbs && port in m.rounds
    ensures Moved(n, m, port, false)
  {
    m := n;
    if other in n.ready {
      var n1 := if q in n.ready then Deinit(n, q) else n;
      var n2 := Became(n1, q, n1.pcbs[q].(state := DUP));
      m := AnnounceMoves(n2, other, [], true, jitter, port);
    }
  }

  lemma RestartMoves(n: Net, jobs: seq<Job>, services: seq<Service>, port: Port) returns (m: Net)
    requires port in n.pcbs && port in n.rounds && Covers(jobs, n.pcbs.Keys)
    ensures m == ProbeEach(Restarted(n), jobs, services, true, true)
    ensures port in m.pcbs && port in m.rounds && Moved(n, m, port, true)
  {
    m := ProbeEachMoves(Restarted(n), jobs, services, true, true, port);
  }

  lemma RemovalMoves(n: Net, s: Service, port: Port) returns (m: Net)
    requires port in n.pcbs && port in n.rounds
    ensures m == StripAll(n, n.queue, s) && m.ready == n.ready && m.named == n.named
    ensures port in m.pcbs && port in m.rounds && Moved(n, m, port, false)
  {
    StripReady(n, n.queue, s);
    m := StripAll(n, n.queue, s);
    if port in n.ready {
      m := StripMoves(n, n.queue, s, port);
    }
  }

  lemma OpMoves(n: Net, op: Probing.Op, port: Port) returns (m: Net)
    requires Probing.OpOk(n, op) && !op.Send? && port in n.pcbs && port in n.rounds
    ensures m == Probing.Apply(n, op) && port in m.pcbs && port in m.rounds
    ensures Moved(n, m, port, Afresh(n, m, op, port))
  {
    m := Probing.Apply(n, op);
    match op
    case ProbeOn(q, services, ip, jitter) => m := StartMoves(n, q, services, ip, jitter, port);
    case ProbeAll(jobs, services, ip, clear) => m := ProbeEachMoves(n, jobs, services, ip, clear, port);
    case RestartAll(jobs, services) => m := RestartMoves(n, jobs, services, port);
    case EnablePort(q, opens, services, jitter) => m := EnableMoves(n, q, opens, services, jitter, port);
    case DisablePort(q, other, opens, services, jitter) =>
      m := DisableMoves(n, q, other, opens, services, jitter, port);
    case Duplicate(q, other, jitter) => m := DuplicateMoves(n, q, other, jitter, port);
    case AnnounceOn(q, services, ip, jitter) => m := AnnounceMoves(n, q, services, ip, jitter, port);
    case RemoveService(s) => m := RemovalMoves(n, s, port);
    case _ =>
  }

  // ---------------------------------------------------------------- sending

  lemma SendEffect(n: Net, q: Port, pcb: Pcb, x: Sent, port: Port) returns (m: Net)
    requires HeadDue(n) && q == PortOf(n.queue[0]) && pcb == n.pcbs[q] && !pcb.state.OFF?
    requires x == Sent(n.now, n.payloads[n.queue[0].id]) && port in n.pcbs && port in n.rounds
    ensures m == Transmit(n) && m.ready == n.ready && m.named == n.named && port in m.pcbs && port in m.rounds
    ensures port != q ==> m.pcbs[port] == n.pcbs[port] && m.rounds[port] == n.rounds[port]
    ensures port == q ==> m.pcbs[port] == Turned(pcb) && m.rounds[port] == n.rounds[port] + [x]
  {
    m := Transmit(n);
  }

  /** The third probe of a round about hosts completes three for each of them. */
  lemma ThirdAsks(n: Net, port: Port, e: Entry, sent: seq<Sent>, x: Sent, host: nat)
    requires port in n.pcbs && port in n.rounds && n.pcbs[port].state.PROBE_3? && ProbingOk(n, port)
    requires Of(n.queue, port) == [e] && e.id in n.payloads && x == Sent(n.now, n.payloads[e.id]) && e.sendAt < n.now
    requires EndsIn(sent, n.rounds[port]) && AsksForHost(x.payload, host)
    ensures Asked(sent + [x], host)
  {
    var services, hosts, exact := n.pcbs[port].services, x.payload.hosts, port !in n.slipped;
    RoundExtends(n.rounds[port], 2, services, hosts, exact, x);
    EndsInStill(sent, n.rounds[port], x);
    RoundAsks(sent + [x], n.rounds[port] + [x], services, hosts, exact, host);
  }

  lemma SendKeepsOwn(n: Net, m: Net, sent: seq<Sent>, port: Port, pcb: Pcb, e: Entry, x: Sent)
    requires port in n.pcbs && port in n.rounds && PortOk(n, port) && port in n.ready && n.named && pcb == n.pcbs[port]
    requires (Asking(pcb.state) ==> Of(n.queue, port) == [e]) && HostOk(n, sent, port)
    requires e.id in n.payloads && x == Sent(n.now, n.payloads[e.id]) && e.sendAt < n.now
    requires port in m.pcbs && port in m.rounds && m.pcbs[port] == Turned(pcb) && m.rounds[port] == n.rounds[port] + [x]
    ensures HostOk(m, sent + [x], port)
  {
    AskedStays(sent, x, SELF);
    if Asking(pcb.state) {
      EndsInStill(sent, n.rounds[port], x);
      if pcb.state.PROBE_3? && pcb.ip {
        ThirdAsks(n, port, e, sent, x, SELF);
      }
    }
  }

  lemma DueHead(n: Net) returns (e: Entry, q: Port, x: Sent)
    requires Ok(n) && HeadDue(n)
    ensures e == n.queue[0] && q == PortOf(e) && e.sendAt < n.now && e.id in n.payloads
            && x == Sent(n.now, n.payloads[e.id])
    ensures q in n.pcbs && q in n.rounds && PortOk(n, q) && q in n.ready && !n.pcbs[q].state.OFF?
    ensures Asking(n.pcbs[q].state) ==> Of(n.queue, q) == [e]
  {
    e, q := HeadOk(n);
    PortsPackets(n, q, e);
    x := Sent(n.now, n.payloads[e.id]);
  }

  lemma SendKeeps(n: Net, sent: seq<Sent>, port: Port) returns (m: Net, e: Entry, q: Port, x: Sent)
    requires Ok(n) && HeadDue(n) && port in n.pcbs && port in n.rounds && HostOk(n, sent, port)
    ensures m == Transmit(n) && port in m.pcbs && port in m.rounds && m.ready == n.ready
    ensures e == n.queue[0] && q == PortOf(e) && e.id in n.payloads && x == Sent(n.now, n.payloads[e.id])
    ensures HostOk(m, if port == q then sent + [x] else sent, port)
  {
    e, q, x := DueHead(n);
    m := SendEffect(n, q, n.pcbs[q], x, port);
    if port == q && n.named {
      SendKeepsOwn(n, m, sent, port, n.pcbs[q], e, x);
    }
  }

  // ---------------------------------------------------------------- every run

  ghost predicate AllHostsOk(h: Heard) {
    && Ok(h.net) && h.sent.Keys == h.net.pcbs.Keys && h.net.rounds.Keys == h.net.pcbs.Keys
    && forall port <- h.net.pcbs :: HostOk(h.net, h.sent[port], port)
  }

  lemma HostStep(h: Heard, op: Probing.Op, port: Port) returns (h': Heard)
    requires Ok(h.net) && Probing.OpOk(h.net, op) && port in h.net.pcbs && port in h.net.rounds && port in h.sent
    requires HostOk(h.net, h.sent[port], port)
    ensures h' == Step(h, op) && port in h'.net.pcbs && port in h'.net.rounds && port in h'.sent
    ensures HostOk(h'.net, h'.sent[port], port)
  {
    h' := Step(h, op);
    if op.Send? {
      var m, e, q, x := SendKeeps(h.net, h.sent[port], port);
    } else {
      var m := OpMoves(h.net, op, port);
      MovedKeeps(h.net, m, h.sent[port], port, Afresh(h.net, m, op, port));
    }
  }

  lemma HostsStep(h: Heard, op: Probing.Op) returns (h': Heard)
    requires AllHostsOk(h) && Probing.OpOk(h.net, op)
    ensures h' == Step(h, op) && AllHostsOk(h') && h'.net.pcbs.Keys == h.net.pcbs.Keys
  {
    h' := Step(h, op);
    StepOk(h.net, op);
    var m := Probing.StepKeeps(h.net, op, Port(0, 0));
    forall port | port in h'.net.pcbs
      ensures port in h'.sent && HostOk(h'.net, h'.sent[port], port)
    {
      var h'' := HostStep(h, op, port);
    }
  }

  ghost predicate HeardRuns(h: Heard, ops: seq<Probing.Op>, h': Heard)
    decreases |ops|
  {
    if ops == [] then h' == h
    else Probing.OpOk(h.net, ops[0]) && HeardRuns(Step(h, ops[0]), ops[1..], h')
  }

  ghost predicate AtStart(h: Heard) {
    SwitchedOff(h.net) && h.sent.Keys == h.net.pcbs.Keys && forall port <- h.sent :: h.sent[port] == []
  }

  lemma {:induction false} HostsSafe(h: Heard, ops: seq<Probing.Op>, h': Heard)
    requires AllHostsOk(h) && HeardRuns(h, ops, h')
    ensures AllHostsOk(h') && h'.net.pcbs.Keys == h.net.pcbs.Keys
    decreases |ops|
  {
    if ops != [] {
      var h1 := HostsStep(h, ops[0]);
      HostsSafe(h1, ops[1..], h');
    }
  }

  lemma StartHostsOk(h: Heard)
    requires AtStart(h)
    ensures AllHostsOk(h)
  {
    SwitchedOffIsOk(h.net);
  }

  /**
   * Over every run from start-up: while the device has a name, a packet with answers is only ever scheduled on a
   * port that has, since it got its socket or the device its name, sent three probes in a row for this device's
   * name, each more than 250 ms after the one before.
   */
  lemma NameProbedBeforeAnswering(start: Heard, ops: seq<Probing.Op>, h: Heard, e: Entry)
    requires AtStart(start) && HeardRuns(start, ops, h) && h.net.named
    requires e in h.net.queue && e.id in h.net.payloads && h.net.payloads[e.id].Answers?
    ensures PortOf(e) in h.sent && Asked(h.sent[PortOf(e)], SELF)
  {
    StartHostsOk(start);
    HostsSafe(start, ops, h);
    var port := ListedOk(h.net, e);
    AnswersAfterProbing(h.net, port, e);
  }

  lemma AnswersAfterProbing(n: Net, port: Port, e: Entry)
    requires port in Fine(n) && e in Of(n.queue, port) && e.id in n.payloads && n.payloads[e.id].Answers?
    ensures !Asking(n.pcbs[port].state)
  {
    assert PortOk(n, port);
  }

  // ---------------------------------------------------------------- the hosts of an announcement

  /** The third probe `x` of a port, in the packet `e`, and the announcement that follows. */
  lemma Completes(n: Net, op: Probing.Op, m: Net, port: Port) returns (e: Entry, x: Sent, p: Payload)
    requires Ok(n) && ComesToAnnounce(n, op, m, port)
    ensures op.Send? && n.queue != [] && e == n.queue[0] && PortOf(e) == port && e.sendAt < n.now && e.id in n.payloads
    ensures x == Sent(n.now, n.payloads[e.id]) && x.payload.Probe? && Of(n.queue, port) == [e]
    ensures port in n.rounds && ProbingOk(n, port) && n.pcbs[port].state.PROBE_3?
    ensures |Of(m.queue, port)| == 1 && Of(m.queue, port)[0].id in m.payloads
            && m.payloads[Of(m.queue, port)[0].id] == p
    ensures Announces(p, n.pcbs[port], x.payload.hosts)
  {
    OnlySendingAnnounces(n, op, port, m);
    var q;
    e, q, x := DueHead(n);
    var said, e' := x.payload, NewEntry(n, port, PROBE_GAP);
    var m' := AskedLast(n, e, port, n.pcbs[port], said, e', port);
    p := Announcement(said);
    AnnouncementIs(said, n.pcbs[port], port !in n.slipped);
  }

  /**
   * When a port turns to announcing, it has asked for every host whose addresses it announces if and only if the
   * round was about hosts or every service it probed is offered by a host it had asked for before.
   */
  lemma AnnouncedHostsAsked(h: Heard, op: Probing.Op, m: Net, port: Port) returns (h': Heard, p: Payload)
    requires AllHostsOk(h) && ComesToAnnounce(h.net, op, m, port)
    ensures h' == Step(h, op) && h'.net == m && port in h.sent && port in h'.sent
    ensures |Of(m.queue, port)| == 1 && Of(m.queue, port)[0].id in m.payloads
            && m.payloads[Of(m.queue, port)[0].id] == p
    ensures p.Answers? && HostsOf(h.net.pcbs[port].services) <= p.hosts
    ensures (forall host <- p.hosts :: Asked(h'.sent[port], host)) <==>
            h.net.pcbs[port].ip || forall s <- h.net.pcbs[port].services :: Asked(h.sent[port], s.host)
  {
    var e, x;
    e, x, p := Completes(h.net, op, m, port);
    h' := Step(h, op);
    assert h'.sent[port] == h.sent[port] + [x];
    var services := h.net.pcbs[port].services;
    if h.net.pcbs[port].ip {
      forall host | host in p.hosts
        ensures Asked(h'.sent[port], host)
      {
        ThirdAsks(h.net, port, e, h.sent[port], x, host);
      }
    } else {
      NothingNew(h.sent[port], x, services, p.hosts);
    }
  }

  lemma NothingNew(sent: seq<Sent>, x: Sent, services: seq<Service>, hosts: set<nat>)
    requires x.payload.Probe? && x.payload.hosts == {} && hosts == HostsOf(services)
    ensures (forall host <- hosts :: Asked(sent + [x], host)) <==> forall s <- services :: Asked(sent, s.host)
  {
    forall host: nat
      ensures Asked(sent + [x], host) <==> Asked(sent, host)
    {
      AskedStays(sent, x, host);
    }
  }

  // ---------------------------------------------------------------- runs where this host is asked for everything

  /** Without host questions, the port probes for services of this device only. */
  ghost predicate OwnOnly(n: Net, port: Port)
    requires port in n.pcbs
  {
    !n.pcbs[port].ip ==> forall s <- n.pcbs[port].services :: s.host == SELF
  }

  /** Services of other hosts are probed for together with the hosts. */
  predicate HostsWithServices(op: Probing.Op) {
    match op
    case ProbeOn(_, services, ip, _) => ip || AllOwn(services)
    case ProbeAll(_, services, ip, _) => ip || AllOwn(services)
    case AnnounceOn(_, services, ip, _) => ip || AllOwn(services)
    case _ => true
  }

  predicate AllOwn(services: seq<Service>) {
    forall s <- services :: s.host == SELF
  }

  lemma StartOwn(n: Net, q: Port, services: seq<Service>, ip: bool, jitter: nat, port: Port) returns (m: Net)
    requires q in n.pcbs && port in n.pcbs && OwnOnly(n, port) && (ip || AllOwn(services))
    ensures m == StartProbe(n, q, services, ip, jitter) && port in m.pcbs && OwnOnly(m, port)
  {
    m := StartProbe(n, q, services, ip, jitter);
    FreshMembers(services, n.pcbs[q].services);
  }

  lemma {:induction false} ProbeEachOwn(n: Net, jobs: seq<Job>, services: seq<Service>, ip: bool, clear: bool,
                                        port: Port)
    requires port in n.pcbs && OwnOnly(n, port) && (ip || AllOwn(services))
    ensures var m := ProbeEach(n, jobs, services, ip, clear); port in m.pcbs && OwnOnly(m, port)
    decreases |jobs|
  {
    if jobs != [] {
      var q, n1 := jobs[0].port, n;
      if q in n.pcbs && q in n.ready {
        n1 := StartOwn(if clear then Forgotten(n, q) else n, q, services, ip, jobs[0].jitter, port);
      }
      ProbeEachOwn(n1, jobs[1..], services, ip, clear, port);
    }
  }

  lemma AnnounceOwn(n: Net, q: Port, services: seq<Service>, ip: bool, jitter: nat, port: Port) returns (m: Net)
    requires q in n.pcbs && port in n.pcbs && OwnOnly(n, port) && (ip || AllOwn(services))
    ensures m == Announce(n, q, services, ip, jitter) && port in m.pcbs && OwnOnly(m, port)
  {
    m := Announce(n, q, services, ip, jitter);
    if q in n.ready && IsProbing(n.pcbs[q].state) {
      m := StartOwn(n, q, services, ip, jitter, port);
    }
  }

  lemma {:induction false} StripOwn(n: Net, todo: seq<Entry>, s: Service, port: Port)
    requires port in n.pcbs && OwnOnly(n, port)
    ensures port in StripAll(n, todo, s).pcbs && OwnOnly(StripAll(n, todo, s), port)
    decreases |todo|
  {
    if !(todo == [] || todo[0].id !in n.payloads || PortOf(todo[0]) !in n.pcbs) {
      RemovedMembers(n.pcbs[PortOf(todo[0])].services, s);
      StripOwn(StripPacket(n, todo[0], s), todo[1..], s, port);
    }
  }

  lemma EnableOwn(n: Net, q: Port, opens: bool, services: seq<Service>, jitter: nat, port: Port) returns (m: Net)
    requires q in n.pcbs && port in n.pcbs && OwnOnly(n, port)
    ensures m == Enable(n, q, opens, services, jitter) && port in m.pcbs && OwnOnly(m, port)
  {
    m := Enable(n, q, opens, services, jitter);
    if q in n.ready || opens {
      m := StartOwn(n.(ready := n.ready + {q}), q, services, true, jitter, port);
    }
  }

  lemma DisableOwn(n: Net, q: Port, other: Option<Port>, opens: bool, services: seq<Service>, jitter: nat, port: Port)
    returns (m: Net)
    requires q in n.pcbs && port in n.pcbs && OwnOnly(n, port)
    requires other.Some? ==> other.value in n.pcbs && other.value != q
    ensures m == Disable(n, q, other, opens, services, jitter) && port in m.pcbs && OwnOnly(m, port)
  {
    m := Disable(n, q, other, opens, services, jitter);
    if q in n.ready {
      var n1 := Deinit(n, q);
      if other.Some? && n1.pcbs[other.value].state.DUP? {
        var n2 := Became(n1, other.value, n1.pcbs[other.value].(state := OFF));
        m := EnableOwn(n2, other.value, opens, services, jitter, port);
      }
    }
  }

  lemma DuplicateOwn(n: Net, q: Port, other: Port, jitter: nat, port: Port) returns (m: Net)
    requires q in n.pcbs && other in n.pcbs && q != other && port in n.pcbs && OwnOnly(n, port)
    ensures m == SetDuplicate(n, q, other, jitter) && port in m.pcbs && OwnOnly(m, port)
  {
    m := n;
    if other in n.ready {
      var n1 := if q in n.ready then Deinit(n, q) else n;
      m := AnnounceOwn(Became(n1, q, n1.pcbs[q].(state := DUP)), other, [], true, jitter, port);
    }
  }

  lemma RestartOwn(n: Net, jobs: seq<Job>, services: seq<Service>, port: Port)
    requires port in n.pcbs && OwnOnly(n, port)
    ensures var m := ProbeEach(Restarted(n), jobs, services, true, true); port in m.pcbs && OwnOnly(m, port)
  {
    ProbeEachOwn(Restarted(n), jobs, services, true, true, port);
  }

  lemma SendOwn(n: Net, port: Port) returns (m: Net)
    requires HeadDue(n) && port in n.pcbs && OwnOnly(n, port)
    ensures m == Transmit(n) && port in m.pcbs && OwnOnly(m, port)
  {
    m := Transmit(n);
  }

  lemma StepOwn(n: Net, op: Probing.Op, port: Port) returns (m: Net)
    requires Probing.OpOk(n, op) && HostsWithServices(op) && port in n.pcbs && OwnOnly(n, port)
    ensures m == Probing.Apply(n, op) && port in m.pcbs && OwnOnly(m, port)
  {
    m := Probing.Apply(n, op);
    match op
    case ProbeOn(q, services, ip, jitter) => m := StartOwn(n, q, services, ip, jitter, port);
    case ProbeAll(jobs, services, ip, clear) => ProbeEachOwn(n, jobs, services, ip, clear, port);
    case RestartAll(jobs, services) => RestartOwn(n, jobs, services, port);
    case EnablePort(q, opens, services, jitter) => m := EnableOwn(n, q, opens, services, jitter, port);
    case DisablePort(q, other, opens, services, jitter) =>
      m := DisableOwn(n, q, other, opens, services, jitter, port);
    case Send => m := SendOwn(n, port);
    case Duplicate(q, other, jitter) => m := DuplicateOwn(n, q, other, jitter, port);
    case AnnounceOn(q, services, ip, jitter) => m := AnnounceOwn(n, q, services, ip, jitter, port);
    case RemoveService(s) => StripOwn(n, n.queue, s, port);
    case _ =>
  }

  ghost predicate AllWithServices(ops: seq<Probing.Op>) {
    forall op <- ops :: HostsWithServices(op)
  }

  lemma {:induction false} OwnThroughout(h: Heard, ops: seq<Probing.Op>, h': Heard, port: Port)
    requires HeardRuns(h, ops, h') && AllWithServices(ops) && port in h.net.pcbs && OwnOnly(h.net, port)
    ensures port in h'.net.pcbs && OwnOnly(h'.net, port)
    decreases |ops|
  {
    if ops != [] {
      var m := StepOwn(h.net, ops[0], port);
      OwnThroughout(Step(h, ops[0]), ops[1..], h', port);
    }
  }

  /**
   * Where services of other hosts are probed for with their hosts only, a port that turns to announcing has by
   * then asked for every host whose addresses it announces.
   */
  lemma EveryHostAsked(start: Heard, ops: seq<Probing.Op>, h: Heard, op: Probing.Op, m: Net, port: Port)
    returns (h': Heard, p: Payload)
    requires AtStart(start) && HeardRuns(start, ops, h) && AllWithServices(ops) && ComesToAnnounce(h.net, op, m, port)
    ensures h' == Step(h, op) && h'.net == m && port in h'.sent
    ensures |Of(m.queue, port)| == 1 && Of(m.queue, port)[0].id in m.payloads
            && m.payloads[Of(m.queue, port)[0].id] == p
    ensures p.Answers? && forall host <- p.hosts :: Asked(h'.sent[port], host)
  {
    StartHostsOk(start);
    HostsSafe(start, ops, h);
    OwnThroughout(start, ops, h, port);
    h', p := AnnouncedHostsAsked(h, op, m, port);
    var e, x, p' := Completes(h.net, op, m, port);
    assert HostOk(h.net, h.sent[port], port);
  }
}
