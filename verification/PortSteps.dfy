/**
 * What the operations on an interface do to the port they are about, to the port beside it, and to all others:
 * stated on records, sockets and packets, and not by the operation's own name.
 */
module PortSteps {
  import opened Basics
  import opened ServiceLists
  import opened TxProtocol
  import opened Probing

  /** Where the operation, if the callers may make it, leads. */
  ghost function Step(n: Net, op: Probing.Op): iset<Net> {
    iset m: Net | StepsTo(n, op, m)
  }

  ghost predicate StepsTo(n: Net, op: Probing.Op, m: Net) {
    Probing.OpOk(n, op) ==> m == Probing.Apply(n, op)
  }

  lemma EnableStep(n: Net, port: Port, opens: bool, services: seq<Service>, jitter: nat, m: Net)
    requires port in n.pcbs && m == Enable(n, port, opens, services, jitter)
    ensures m in Step(n, EnablePort(port, opens, services, jitter))
  {
  }

  lemma DisableStep(n: Net, port: Port, other: Option<Port>, opens: bool, services: seq<Service>, jitter: nat, m: Net)
    requires port in n.pcbs && (other.Some? ==> other.value in n.pcbs && other.value != port)
    requires m == Disable(n, port, other, opens, services, jitter)
    ensures m in Step(n, DisablePort(port, other, opens, services, jitter))
  {
  }

  lemma DuplicateStep(n: Net, port: Port, other: Port, jitter: nat, m: Net)
    requires port in n.pcbs && other in n.pcbs && port != other && m == SetDuplicate(n, port, other, jitter)
    ensures m in Step(n, Duplicate(port, other, jitter))
  {
  }

  lemma AnnounceStep(n: Net, port: Port, services: seq<Service>, ip: bool, jitter: nat, m: Net)
    requires port in n.pcbs && m == Announce(n, port, services, ip, jitter)
    ensures m in Step(n, AnnounceOn(port, services, ip, jitter))
  {
  }

  lemma RestartStep(n: Net, jobs: seq<Job>, services: seq<Service>, m: Net)
    requires m == ProbeEach(Restarted(n), jobs, services, true, true)
    ensures m in Step(n, RestartAll(jobs, services))
  {
  }

  lemma RespondStep(n: Net, port: Port, said: Payload, ms: nat, m: Net)
    requires m == Scheduled(n, port, said, ms)
    ensures m in Step(n, Respond(port, said, ms))
  {
  }

  lemma RemoveStep(n: Net, op: Probing.Op, m: Net)
    requires op.RemoveService? && m == StripAll(n, n.queue, op.service)
    ensures m in Step(n, op)
  {
    assert Probing.Apply(n, op) == m;
  }

  lemma SendStep(n: Net, m: Net)
    requires HeadDue(n) && m == Transmit(n)
    ensures m in Step(n, Send)
  {
  }

  /** What concerns one port is as it was: its record, socket and round, its packets and what they say. */
  ghost predicate Untouched(n: Net, m: Net, p: Port) {
    && (p in m.pcbs <==> p in n.pcbs) && (p in n.pcbs ==> m.pcbs[p] == n.pcbs[p])
    && (p in m.ready <==> p in n.ready) && (p in m.slipped <==> p in n.slipped)
    && (p in m.rounds <==> p in n.rounds) && (p in n.rounds ==> m.rounds[p] == n.rounds[p])
    && Of(m.queue, p) == Of(n.queue, p)
    && forall e <- Of(n.queue, p) :: e.id in n.payloads ==> e.id in m.payloads && m.payloads[e.id] == n.payloads[e.id]
  }

  /** The ports of which that holds. */
  ghost function Spared(n: Net, m: Net): iset<Port> {
    iset p: Port | Untouched(n, m, p)
  }

  lemma Spare(n: Net, m: Net, p: Port)
    requires Untouched(n, m, p)
    ensures p in Spared(n, m)
  {
  }

  lemma SparedTwice(n: Net, m: Net, k: Net, p: Port)
    requires p in Spared(n, m) && p in Spared(m, k)
    ensures p in Spared(n, k)
  {
  }

  /** A port's own record and socket do not concern the other ports. */
  lemma OwnOnly(n: Net, m: Net, port: Port, pcb: Pcb, ready: set<Port>, p: Port)
    requires m == Became(n.(ready := ready), port, pcb) && ready - {port} == n.ready - {port}
    ensures p != port ==> p in Spared(n, m)
  {
    assert p in ready - {port} <==> p in n.ready - {port};
    if p != port {
      Spare(n, m, p);
    }
  }

  lemma RoundOnly(n: Net, port: Port, p: Port) returns (m: Net)
    ensures m == RoundBegun(n, port) && (p != port ==> p in Spared(n, m))
  {
    m := RoundBegun(n, port);
    if p != port {
      Spare(n, m, p);
    }
  }

  /** The packet asks for exactly these services and offers their records; if `ip`, for this device and their hosts. */
  predicate Asks(said: Payload, services: seq<Service>, ip: bool) {
    && said.Probe? && said.questions == services && said.servers == services
    && (!ip ==> said.hosts == {} && said.addresses == {})
    && (ip ==> said.hosts == {SELF} + HostsOf(services)
               && said.addresses == if services == [] then {SELF} else HostsOf(services))
  }

  /** The port has its socket and has just begun to probe: one packet is scheduled for it, due at `at`. */
  ghost predicate Begins(m: Net, port: Port, services: seq<Service>, ip: bool, at: nat) {
    && port in m.pcbs && port in m.ready && port in m.rounds && m.rounds[port] == [] && port !in m.slipped
    && m.pcbs[port].state == PROBE_1 && m.pcbs[port].running
    && m.pcbs[port].services == services && m.pcbs[port].ip == ip
    && var mine := Of(m.queue, port);
       && |mine| == 1 && mine[0].sendAt == at && !mine[0].queued
       && mine[0].id in m.payloads && Asks(m.payloads[mine[0].id], services, ip)
  }

  /** The port has its socket but there is no name to probe for: it just runs. */
  ghost predicate JustRuns(m: Net, port: Port) {
    port in m.pcbs && port in m.ready && m.pcbs[port].state == RUNNING && Of(m.queue, port) == []
  }

  /** When the first probe goes out. */
  function FirstProbeAt(n: Net, port: Port, jitter: nat): nat
    requires port in n.pcbs
  {
    n.now + (if n.pcbs[port].failed > 5 then 1000 else 120) + jitter
  }

  lemma ClearedOnly(n: Net, port: Port, p: Port) returns (m: Net)
    ensures m == n.(queue := Cleared(n.queue, port.iface, port.proto)) && Of(m.queue, port) == []
    ensures p != port ==> p in Spared(n, m)
  {
    m := n.(queue := Cleared(n.queue, port.iface, port.proto));
    OfCleared(n.queue, port, port);
    OfCleared(n.queue, port, p);
    if p != port {
      Spare(n, m, p);
    }
  }

  lemma ScheduledOnly(n: Net, port: Port, said: Payload, ms: nat, e: Entry, p: Port) returns (m: Net)
    requires ListOk(n) && e == NewEntry(n, port, ms)
    ensures m == Scheduled(n, port, said, ms) && e.id in m.payloads && m.payloads[e.id] == said
    ensures Of(n.queue, port) == [] ==> Of(m.queue, port) == [e]
    ensures p != port ==> p in Spared(n, m)
  {
    m := Scheduled(n, port, said, ms);
    assert PortOf(e) == port;
    OfInsert(n.queue, e, port);
    OfInsert(n.queue, e, p);
    forall x | x in Of(n.queue, p)
      ensures x.id < n.nextId
    {
      OfSource(n.queue, p, x);
    }
    if p != port {
      Spare(n, m, p);
    }
  }

  /** A probe begun on a port with its socket: for the services given, those it already asks for last. */
  lemma StartProbeDoes(n: Net, port: Port, services: seq<Service>, ip: bool, jitter: nat, p: Port) returns (m: Net)
    requires ListOk(n) && port in n.pcbs && port in n.ready
    ensures m == StartProbe(n, port, services, ip, jitter) && m.named == n.named && m.now == n.now
    ensures m in Step(n, ProbeOn(port, services, ip, jitter))
    ensures var pcb := n.pcbs[port];
            var all := if IsProbing(pcb.state) then Fresh(services, pcb.services) + pcb.services else services;
            if n.named then Begins(m, port, all, pcb.ip || ip, FirstProbeAt(n, port, jitter)) else JustRuns(m, port)
    ensures p != port ==> p in Spared(n, m)
  {
    var n1 := ClearedOnly(n, port, p);
    if n.named {
      m := ProbeBegunOnly(n, n1, port, services, ip, jitter, p);
    } else {
      m := Became(n1, port, n.pcbs[port].(state := RUNNING));
      OwnOnly(n1, m, port, n.pcbs[port].(state := RUNNING), n1.ready, p);
    }
    if p != port {
      SparedTwice(n, n1, m, p);
    }
  }

  lemma ProbeBegunOnly(n: Net, n1: Net, port: Port, services: seq<Service>, ip: bool, jitter: nat, p: Port)
    returns (m: Net)
    requires ListOk(n) && port in n.pcbs && port in n.ready && n.named
    requires n1 == n.(queue := Cleared(n.queue, port.iface, port.proto)) && Of(n1.queue, port) == []
    ensures m == StartProbe(n, port, services, ip, jitter) && m.named == n.named && m.now == n.now
    ensures Begins(m, port, AllProbed(n.pcbs[port], services), n.pcbs[port].ip || ip, FirstProbeAt(n, port, jitter))
    ensures p != port ==> p in Spared(n1, m)
  {
    var pcb, all := n.pcbs[port], AllProbed(n.pcbs[port], services);
    var cleared := PortClearedOk(n, port, p);
    var n2 := RoundOnly(n1, port, p);
    OthersKeep(n1, n2, port, p);
    var ms := (if pcb.failed > 5 then 1000 else 120) + jitter;
    var n3 := ScheduledOnly(n2, port, ProbeFor(all, pcb.ip || ip), ms, NewEntry(n2, port, ms), p);
    var pcb' := Pcb(PROBE_1, all, pcb.ip || ip, true, pcb.failed);
    m := Became(n3, port, pcb');
    OwnOnly(n3, m, port, pcb', n3.ready, p);
    if p != port {
      SparedTwice(n1, n2, n3, p);
      SparedTwice(n1, n3, m, p);
    }
  }

  /**
   * Enabling: if the socket is missing and does not open, the failures are forgotten and nothing else happens; else
   * the port has its socket and begins to probe for the services given (those it was asking for last) and the host.
   */
  lemma EnableDoes(n: Net, port: Port, opens: bool, services: seq<Service>, jitter: nat, p: Port) returns (m: Net)
    requires ListOk(n) && port in n.pcbs
    ensures m == Enable(n, port, opens, services, jitter)
    ensures m in Step(n, EnablePort(port, opens, services, jitter))
    ensures port !in n.ready && !opens ==>
              port in m.pcbs && port !in m.ready && m.pcbs[port] == n.pcbs[port].(failed := 0)
              && Of(m.queue, port) == Of(n.queue, port)
    ensures port in n.ready || opens ==>
              var pcb := n.pcbs[port];
              var all := if IsProbing(pcb.state) then Fresh(services, pcb.services) + pcb.services else services;
              if n.named then Begins(m, port, all, true, FirstProbeAt(n, port, jitter)) else JustRuns(m, port)
    ensures p != port ==> p in Spared(n, m)
  {
    var pcb := n.pcbs[port];
    EnableStep(n, port, opens, services, jitter, Enable(n, port, opens, services, jitter));
    if port !in n.ready && !opens {
      m := Enable(n, port, opens, services, jitter);
      OwnOnly(n, m, port, pcb.(failed := 0), n.ready, p);
    } else {
      var n1 := n.(ready := n.ready + {port});
      assert n1 == Became(n1, port, pcb);
      OwnOnly(n, n1, port, pcb, n1.ready, p);
      OthersKeep(n, n1, port, p);
      m := StartProbeDoes(n1, port, services, true, jitter, p);
      if p != port {
        SparedTwice(n, n1, m, p);
      }
    }
  }

  /** The port has no socket, nothing is scheduled for it, and its probing is forgotten. */
  ghost predicate Silenced(m: Net, port: Port, state: State) {
    && port in m.pcbs && port !in m.ready && Of(m.queue, port) == []
    && m.pcbs[port].state == state && m.pcbs[port].services == [] && !m.pcbs[port].ip && !m.pcbs[port].running
  }

  lemma DeinitDoes(n: Net, port: Port, p: Port) returns (m: Net)
    requires ListOk(n) && port in n.pcbs
    ensures m == Deinit(n, port) && ListOk(m) && Silenced(m, port, OFF) && m.named == n.named && m.now == n.now
    ensures m.pcbs.Keys == n.pcbs.Keys && (p != port ==> p in Spared(n, m))
  {
    var n1 := ClearedOnly(n, port, p);
    m := DeinitOk(n, port, p);
    OwnOnly(n1, m, port, Pcb(OFF, [], false, false, 0), n.ready - {port}, p);
    if p != port {
      SparedTwice(n, n1, m, p);
    }
  }

  /** Disabling wakes the port beside this one. */
  predicate Wakes(n: Net, port: Port, other: Option<Port>) {
    port in n.ready && other.Some? && other.value in n.pcbs && n.pcbs[other.value].state.DUP?
  }

  lemma SilentWithoutSocket(n: Net, port: Port)
    requires Ok(n) && port in n.pcbs && port !in n.ready
    ensures Silenced(n, port, n.pcbs[port].state)
  {
    assert port in Fine(n) && PortOk(n, port);
  }

  /**
   * Disabling: the port has no socket, is OFF and has nothing scheduled. If it had its socket, a port beside it that
   * was its duplicate is no longer one: with its socket, there already or opened now, it begins to probe for the
   * services and the host; without, it is OFF. All other ports are untouched.
   */
  lemma DisableDoes(n: Net, port: Port, other: Option<Port>, opens: bool, services: seq<Service>, jitter: nat, p: Port)
    returns (m: Net)
    requires Ok(n) && port in n.pcbs && (other.Some? ==> other.value in n.pcbs && other.value != port)
    ensures m == Disable(n, port, other, opens, services, jitter) && Silenced(m, port, OFF)
    ensures m in Step(n, DisablePort(port, other, opens, services, jitter))
    ensures Wakes(n, port, other) && (other.value in n.ready || opens) ==>
              if n.named then Begins(m, other.value, services, true, FirstProbeAt(n, other.value, jitter))
              else JustRuns(m, other.value)
    ensures Wakes(n, port, other) && other.value !in n.ready && !opens ==> Silenced(m, other.value, OFF)
    ensures p != port && !(Wakes(n, port, other) && p == other.value) ==> p in Spared(n, m)
  {
    DisableStep(n, port, other, opens, services, jitter, Disable(n, port, other, opens, services, jitter));
    if port !in n.ready {
      SilentWithoutSocket(n, port);
      m := Disable(n, port, other, opens, services, jitter);
      OwnOnly(n, m, port, n.pcbs[port].(state := OFF), n.ready, p);
    } else if Wakes(n, port, other) {
      m := DisableWakes(n, port, other.value, opens, services, jitter, p);
    } else {
      m := DeinitDoes(n, port, p);
    }
  }

  lemma StaysSilenced(n: Net, m: Net, port: Port, state: State)
    requires Silenced(n, port, state) && port in Spared(n, m)
    ensures Silenced(m, port, state)
  {
  }

  lemma DisableWakes(n: Net, port: Port, other: Port, opens: bool, services: seq<Service>, jitter: nat, p: Port)
    returns (m: Net)
    requires Ok(n) && port in n.ready && port in n.pcbs && other in n.pcbs && other != port && n.pcbs[other].state.DUP?
    ensures m == Disable(n, port, Some(other), opens, services, jitter) && Silenced(m, port, OFF)
    ensures other in n.ready || opens ==>
              if n.named then Begins(m, other, services, true, FirstProbeAt(n, other, jitter)) else JustRuns(m, other)
    ensures other !in n.ready && !opens ==> Silenced(m, other, OFF)
    ensures p != port && p != other ==> p in Spared(n, m)
  {
    var n1 := DeinitDoes(n, port, other);
    if other !in n.ready {
      SilentWithoutSocket(n, other);
      StaysSilenced(n, n1, other, DUP);
    }
    m := WakeDoes(n1, other, opens, services, jitter, port);
    StaysSilenced(n1, m, port, OFF);
    if p != port && p != other {
      n1 := DeinitDoes(n, port, p);
      m := WakeDoes(n1, other, opens, services, jitter, p);
      SparedTwice(n, n1, m, p);
    }
  }

  /** A duplicate is no longer one, and is enabled. */
  lemma WakeDoes(n: Net, other: Port, opens: bool, services: seq<Service>, jitter: nat, p: Port) returns (m: Net)
    requires ListOk(n) && other in n.pcbs && (other !in n.ready ==> Silenced(n, other, DUP))
    requires n.pcbs[other].state.DUP?
    ensures m == Enable(Became(n, other, n.pcbs[other].(state := OFF)), other, opens, services, jitter)
    ensures other in n.ready || opens ==>
              if n.named then Begins(m, other, services, true, FirstProbeAt(n, other, jitter)) else JustRuns(m, other)
    ensures other !in n.ready && !opens ==> Silenced(m, other, OFF)
    ensures p != other ==> p in Spared(n, m)
  {
    var pcb := n.pcbs[other].(state := OFF);
    var n1 := Became(n, other, pcb);
    OthersKeep(n, n1, other, p);
    OwnOnly(n, n1, other, pcb, n.ready, p);
    m := EnableDoes(n1, other, opens, services, jitter, p);
    if p != other {
      SparedTwice(n, n1, m, p);
    }
  }

  // ---------------------------------------------------------------- announcing

  /** The packet `said` with the answers of more services, and of their hosts or, without any, of this device. */
  predicate Enlarged(said: Payload, more: Payload, services: seq<Service>, ip: bool) {
    && said.Answers? && more.Answers? && more.services == said.services + services
    && more.hosts == said.hosts + (if !ip then {} else if services == [] then {SELF} else HostsOf(services))
    && more.others == said.others && more.additional == said.additional && more.extras == said.extras
    && more.repeated == said.repeated
  }

  /** The announcement scheduled for the port, the first of its packets, takes up the services; its round restarts. */
  ghost predicate TakesUp(n: Net, m: Net, port: Port, services: seq<Service>, ip: bool) {
    && port in n.pcbs && port in m.pcbs && m.pcbs[port] == n.pcbs[port].(state := ANNOUNCE_1)
    && var mine := Of(n.queue, port);
       && mine != [] && Of(m.queue, port) == mine && mine[0].id in n.payloads && mine[0].id in m.payloads
       && Enlarged(n.payloads[mine[0].id], m.payloads[mine[0].id], services, ip)
       && forall e <- mine :: e.id != mine[0].id && e.id in n.payloads ==>
            e.id in m.payloads && m.payloads[e.id] == n.payloads[e.id]
  }

  /** A new announcement is scheduled at once, of the services, the addresses added to it as an authority. */
  ghost predicate AnnouncesNow(n: Net, m: Net, port: Port, services: seq<Service>, ip: bool, e: Entry) {
    && port in n.pcbs && port in m.pcbs && m.pcbs[port] == n.pcbs[port].(state := ANNOUNCE_1)
    && PortOf(e) == port && e.sendAt == n.now && !e.queued
    && (forall x :: x in Of(m.queue, port) <==> x == e || x in Of(n.queue, port))
    && e !in Of(n.queue, port) && e.id in m.payloads
    && m.payloads[e.id] == Answers(services, {}, false, [],
                                   if !ip then {} else if services == [] then {SELF} else HostsOf(services), false)
  }

  lemma OfInsertExactly(q: seq<Entry>, e: Entry, port: Port)
    requires PortOf(e) == port
    ensures forall x :: x in Of(Insert(q, e), port) <==> x == e || x in Of(q, port)
  {
    var k := Slot(q, e.sendAt);
    assert q == q[..k] + q[k..];
    OfAppend(q[..k], q[k..], port);
    OfAppend(q[..k] + [e], q[k..], port);
    OfAppend(q[..k], [e], port);
    OfOne(e, port);
  }

  /** What announcing comes to, by the state of the port: see AnnounceDoes. */
  ghost predicate Announced(n: Net, m: Net, port: Port, services: seq<Service>, ip: bool, jitter: nat)
    requires port in n.pcbs
  {
    var pcb := n.pcbs[port];
    if port !in n.ready then port in Spared(n, m)
    else if IsProbing(pcb.state) then
      if n.named then
        Begins(m, port, Fresh(services, pcb.services) + pcb.services, pcb.ip || ip, FirstProbeAt(n, port, jitter))
      else JustRuns(m, port)
    else if IsAnnouncing(pcb.state) && Of(n.queue, port) != [] then TakesUp(n, m, port, services, ip)
    else if pcb.state.RUNNING? && n.named then exists e :: AnnouncesNow(n, m, port, services, ip, e)
    else port in Spared(n, m)
  }

  /**
   * Announcing on a ready port: a probing one begins anew, with the services in front; an announcing one takes
   * them up into its announcement; a running one of a named device schedules one at once. Nothing else happens.
   */
  lemma AnnounceDoes(n: Net, port: Port, services: seq<Service>, ip: bool, jitter: nat, p: Port) returns (m: Net)
    requires Ok(n) && port in n.pcbs
    ensures m == Announce(n, port, services, ip, jitter) && Announced(n, m, port, services, ip, jitter)
    ensures m in Step(n, AnnounceOn(port, services, ip, jitter))
    ensures (p != port ==> p in Spared(n, m)) && (port !in n.ready ==> m == n)
  {
    AnnounceStep(n, port, services, ip, jitter, Announce(n, port, services, ip, jitter));
    var pcb, mine := n.pcbs[port], Of(n.queue, port);
    m := Announce(n, port, services, ip, jitter);
    assert port in Fine(n) && PortOk(n, port);
    Spare(n, n, p);
    Spare(n, n, port);
    if port in n.ready {
      if IsProbing(pcb.state) {
        m := StartProbeDoes(n, port, services, ip, jitter, p);
      } else if IsAnnouncing(pcb.state) {
        if mine != [] {
          TakenUp(n, port, services, ip, p, m);
        }
      } else if pcb.state.RUNNING? && n.named {
        m := AnnouncedNow(n, port, services, ip, jitter, p);
        NowAnnounced(n, m, port, services, ip, NewEntry(n, port, 0));
      }
    }
  }

  lemma TakenUp(n: Net, port: Port, services: seq<Service>, ip: bool, p: Port, m: Net)
    requires Ok(n) && port in n.pcbs && port in n.ready && IsAnnouncing(n.pcbs[port].state) && Of(n.queue, port) != []
    requires m == Announce(n, port, services, ip, 0)
    ensures TakesUp(n, m, port, services, ip) && (p != port ==> p in Spared(n, m))
  {
    var mine := Of(n.queue, port);
    assert port in Fine(n) && PortOk(n, port) && mine[0] in mine;
    var more := WithMore(n.payloads[mine[0].id], services, ip);
    var n1 := RewordedOnly(n, port, mine[0], more, p);
    OwnOnly(n1, m, port, n.pcbs[port].(state := ANNOUNCE_1), n.ready, p);
    if p != port {
      SparedTwice(n, n1, m, p);
    }
  }

  lemma RewordedOnly(n: Net, port: Port, e: Entry, said: Payload, p: Port) returns (m: Net)
    requires ListOk(n) && e in Of(n.queue, port)
    ensures m == n.(payloads := n.payloads[e.id := said]) && (p != port ==> p in Spared(n, m))
  {
    m := n.(payloads := n.payloads[e.id := said]);
    OfSource(n.queue, port, e);
    if p != port {
      OtherIds(n.queue, e, p);
      Spare(n, m, p);
    }
  }

  lemma AnnouncedNow(n: Net, port: Port, services: seq<Service>, ip: bool, jitter: nat, p: Port) returns (m: Net)
    requires ListOk(n) && port in n.pcbs && port in n.ready && n.pcbs[port].state.RUNNING? && n.named
    ensures m == Announce(n, port, services, ip, jitter)
    ensures p != port ==> p in Spared(n, m)
  {
    var e, said := NewEntry(n, port, 0), FreshAnnouncement(services, ip);
    var n1 := ScheduledOnly(n, port, said, 0, e, p);
    m := Became(n1, port, n.pcbs[port].(state := ANNOUNCE_1));
    OwnOnly(n1, m, port, n.pcbs[port].(state := ANNOUNCE_1), n.ready, p);
    if p != port {
      SparedTwice(n, n1, m, p);
    }
  }

  lemma NowAnnounced(n: Net, m: Net, port: Port, services: seq<Service>, ip: bool, e: Entry)
    requires ListOk(n) && port in n.pcbs && e == NewEntry(n, port, 0)
    requires m == Became(Scheduled(n, port, FreshAnnouncement(services, ip), 0), port,
                         n.pcbs[port].(state := ANNOUNCE_1))
    ensures AnnouncesNow(n, m, port, services, ip, e)
  {
    OfInsertExactly(n.queue, e, port);
    if e in Of(n.queue, port) {
      OfSource(n.queue, port, e);
    }
  }

  /** Announcing depends on what concerns the port, the name and the clock. */
  lemma AnnouncedFrame(n: Net, n1: Net, m: Net, port: Port, services: seq<Service>, ip: bool, jitter: nat)
    requires port in n.pcbs && port in n1.pcbs && port in Spared(n, n1) && n1.named == n.named && n1.now == n.now
    requires Announced(n1, m, port, services, ip, jitter)
    requires forall e <- Of(n.queue, port) :: e.id in n.payloads
    ensures Announced(n, m, port, services, ip, jitter)
  {
    assert forall e :: AnnouncesNow(n1, m, port, services, ip, e) ==> AnnouncesNow(n, m, port, services, ip, e);
    if port in Spared(n1, m) {
      SparedTwice(n, n1, m, port);
    }
  }

  /**
   * Marking a duplicate of a port that has its socket: the port has no socket, is DUP and has nothing scheduled, and
   * the other one announces this device's addresses. Without such a port nothing happens.
   */
  lemma DuplicateDoes(n: Net, port: Port, other: Port, jitter: nat, p: Port) returns (m: Net)
    requires Ok(n) && port in n.pcbs && other in n.pcbs && port != other
    ensures m == SetDuplicate(n, port, other, jitter) && m in Step(n, Duplicate(port, other, jitter))
    ensures other !in n.ready ==> m == n
    ensures other in n.ready ==> Silenced(m, port, DUP) && Announced(n, m, other, [], true, jitter)
    ensures p != port && p != other ==> p in Spared(n, m)
  {
    DuplicateStep(n, port, other, jitter, SetDuplicate(n, port, other, jitter));
    m := n;
    Spare(n, n, p);
    if other in n.ready {
      var n1 := MarkedDuplicateOk(n, port);
      MarkedDoes(n, port, n1, p);
      MarkedDoes(n, port, n1, other);
      m := AnnounceDoes(n1, other, [], true, jitter, port);
      StaysSilenced(n1, m, port, DUP);
      PacketsKnown(n, other);
      AnnouncedFrame(n, n1, m, other, [], true, jitter);
      if p != port && p != other {
        m := AnnounceDoes(n1, other, [], true, jitter, p);
        SparedTwice(n, n1, m, p);
      }
    }
  }

  lemma PacketsKnown(n: Net, port: Port)
    requires ListOk(n)
    ensures forall e <- Of(n.queue, port) :: e.id in n.payloads
  {
    forall e | e in Of(n.queue, port)
      ensures e.id in n.payloads
    {
      OfSource(n.queue, port, e);
    }
  }

  lemma MarkedDoes(n: Net, port: Port, m: Net, p: Port)
    requires Ok(n) && port in n.pcbs
    requires var n1 := if port in n.ready then Deinit(n, port) else n;
             port in n1.pcbs && m == Became(n1, port, n1.pcbs[port].(state := DUP))
    ensures Silenced(m, port, DUP) && m.named == n.named && m.now == n.now && (p != port ==> p in Spared(n, m))
  {
    if port in n.ready {
      var n1 := DeinitDoes(n, port, p);
      OwnOnly(n1, m, port, n1.pcbs[port].(state := DUP), n1.ready, p);
      if p != port {
        SparedTwice(n, n1, m, p);
      }
    } else {
      SilentWithoutSocket(n, port);
      OwnOnly(n, m, port, n.pcbs[port].(state := DUP), n.ready, p);
    }
  }

  // ---------------------------------------------------------------- starting over

  /**
   * Since `n` or later the port probes for these services, and about hosts if so asked; where what it asked for
   * before is cleared, for these services alone.
   */
  ghost predicate Begun(n: Net, m: Net, port: Port, services: seq<Service>, ip: bool, clear: bool) {
    exists all, hosts, at :: n.now <= at && Begins(m, port, all, hosts, at) && Takes(all, hosts, services, ip, clear)
  }

  predicate Takes(all: seq<Service>, hosts: bool, services: seq<Service>, ip: bool, clear: bool) {
    (clear ==> all == services) && (forall s <- services :: s in all) && (ip ==> hosts)
  }

  lemma {:induction false} AllFresh(services: seq<Service>)
    ensures Fresh(services, []) == services
  {
    if services != [] {
      AllFresh(services[1..]);
      assert services == [services[0]] + services[1..];
    }
  }

  lemma AllTaken(pcb: Pcb, services: seq<Service>, ip: bool, clear: bool)
    requires clear ==> pcb.services == []
    ensures Takes(AllProbed(pcb, services), pcb.ip || ip, services, ip, clear)
  {
    AllFresh(services);
    FreshMembers(services, pcb.services);
    assert services + [] == services;
  }

  /** One port begins anew, and the others are left so. */
  lemma AnewDoes(n: Net, port: Port, services: seq<Service>, ip: bool, clear: bool, jitter: nat, p: Port)
    returns (m: Net)
    requires ListOk(n) && port in n.pcbs && port in n.ready && n.named
    ensures m == StartProbe(if clear then Forgotten(n, port) else n, port, services, ip, jitter)
    ensures Begun(n, m, port, services, ip, clear) && (p != port ==> p in Spared(n, m))
    ensures m.now == n.now && m.named
  {
    var n1 := if clear then Forgotten(n, port) else n;
    var pcb := n1.pcbs[port];
    if clear {
      OthersKeep(n, n1, port, p);
      OwnOnly(n, n1, port, pcb, n.ready, p);
    } else {
      Spare(n, n, p);
    }
    m := StartProbeDoes(n1, port, services, ip, jitter, p);
    AllTaken(pcb, services, ip, clear);
    assert Begins(m, port, AllProbed(pcb, services), pcb.ip || ip, FirstProbeAt(n1, port, jitter));
    if p != port {
      SparedTwice(n, n1, m, p);
    }
  }

  lemma StaysBegun(n: Net, n1: Net, m: Net, p: Port, services: seq<Service>, ip: bool, clear: bool)
    requires Begun(n, n1, p, services, ip, clear) && p in Spared(n1, m)
    ensures Begun(n, m, p, services, ip, clear)
  {
    var all, hosts, at :| n.now <= at && Begins(n1, p, all, hosts, at) && Takes(all, hosts, services, ip, clear);
    assert Of(n1.queue, p)[0] in Of(n1.queue, p);
    assert Begins(m, p, all, hosts, at);
  }

  /** The port is to begin, or has begun. */
  ghost predicate InTurn(start: Net, n: Net, jobs: seq<Job>, p: Port, services: seq<Service>, ip: bool, clear: bool) {
    p in n.ready && (Visits(jobs, p) || Begun(start, n, p, services, ip, clear))
  }

  /** The first job. */
  lemma VisitOne(n: Net, jobs: seq<Job>, services: seq<Service>, ip: bool, clear: bool, p: Port, start: Net)
    returns (n1: Net)
    requires ListOk(n) && NoRepeats(services) && (services != [] || ip) && (clear || Fine(n) == n.pcbs.Keys)
    requires n.named && start.now == n.now && p in n.pcbs && jobs != []
    ensures n1 == if jobs[0].port in n.pcbs && jobs[0].port in n.ready
                  then StartProbe(if clear then Forgotten(n, jobs[0].port) else n, jobs[0].port, services, ip,
                                  jobs[0].jitter)
                  else n
    ensures ListOk(n1) && (clear || Fine(n1) == n1.pcbs.Keys) && n1.named && n1.now == n.now
    ensures n1.pcbs.Keys == n.pcbs.Keys && n1.ready == n.ready
    ensures InTurn(start, n, jobs, p, services, ip, clear) ==> InTurn(start, n1, jobs[1..], p, services, ip, clear)
    ensures !Visits(jobs, p) ==> !Visits(jobs[1..], p)
    ensures p !in n.ready || !Visits(jobs, p) ==> p in Spared(n, n1)
  {
    var port := jobs[0].port;
    assert Visits(jobs, port);
    VisitedLater(jobs, p);
    if Visits(jobs[1..], p) {
      NotVisited(jobs, p);
    }
    n1 := n;
    Spare(n, n, p);
    if port in n.pcbs && port in n.ready {
      n1 := ProbeOne(n, port, services, ip, clear, jobs[0].jitter, p);
      n1 := AnewDoes(n, port, services, ip, clear, jobs[0].jitter, p);
      if p != port && Begun(start, n, p, services, ip, clear) {
        StaysBegun(start, n, n1, p, services, ip, clear);
      }
    }
  }

  /** Probing on one port after another: those visited begin, and those without a socket are untouched. */
  lemma {:induction false} EachBegins(n: Net, jobs: seq<Job>, services: seq<Service>, ip: bool, clear: bool, p: Port,
                                      start: Net, m: Net)
    requires ListOk(n) && NoRepeats(services) && (services != [] || ip) && (clear || Fine(n) == n.pcbs.Keys)
    requires n.named && start.now == n.now && p in n.pcbs && m == ProbeEach(n, jobs, services, ip, clear)
    ensures InTurn(start, n, jobs, p, services, ip, clear) ==> Begun(start, m, p, services, ip, clear)
    ensures (p !in n.ready || !Visits(jobs, p) ==> p in Spared(n, m)) && m.named
    decreases |jobs|
  {
    if jobs == [] {
      Spare(n, n, p);
    } else {
      var n1 := VisitOne(n, jobs, services, ip, clear, p, start);
      EachBegins(n1, jobs[1..], services, ip, clear, p, start, m);
      if p !in n.ready || !Visits(jobs, p) {
        SparedTwice(n, n1, m, p);
      }
    }
  }

  lemma NotVisited(jobs: seq<Job>, p: Port)
    requires jobs != [] && Visits(jobs[1..], p)
    ensures Visits(jobs, p)
  {
    var i :| 0 <= i < |jobs[1..]| && jobs[1..][i].port == p;
    assert jobs[i + 1].port == p;
  }

  /**
   * Probing on all ports of a named device: every port visited that has its socket begins to probe for the
   * services given, with those it was asking for unless these are cleared; no other port is touched.
   */
  lemma ProbeAllDoes(n: Net, jobs: seq<Job>, services: seq<Service>, ip: bool, clear: bool, p: Port) returns (m: Net)
    requires Ok(n) && NoRepeats(services) && (services != [] || ip) && n.named && p in n.pcbs
    ensures m == ProbeEach(n, jobs, services, ip, clear) && m in Step(n, ProbeAll(jobs, services, ip, clear))
    ensures if p in n.ready && Visits(jobs, p) then Begun(n, m, p, services, ip, clear) else p in Spared(n, m)
  {
    m := ProbeEach(n, jobs, services, ip, clear);
    EachBegins(n, jobs, services, ip, clear, p, n, m);
  }

  /** The packets of the port are the packet `e` and the rest. */
  ghost predicate Lists(q: seq<Entry>, port: Port, e: Entry, rest: seq<Entry>) {
    forall x :: x in Of(q, port) <==> x == e || x in rest
  }

  /** A response of a port past its probing is scheduled besides its other packets. */
  lemma RespondDoes(n: Net, port: Port, said: Payload, ms: nat, e: Entry, p: Port) returns (m: Net)
    requires ListOk(n) && port in n.pcbs && e == NewEntry(n, port, ms)
    ensures m in Step(n, Respond(port, said, ms))
    ensures PortOf(e) == port && e.sendAt == n.now + ms && e.id in m.payloads && m.payloads[e.id] == said
    ensures Lists(m.queue, port, e, Of(n.queue, port)) && m.pcbs == n.pcbs && (p != port ==> p in Spared(n, m))
  {
    m := ScheduledOnly(n, port, said, ms, e, p);
    RespondStep(n, port, said, ms, m);
    OfInsertExactly(n.queue, e, port);
  }

  /**
   * When the device gets a name, at first or after a conflict: what was scheduled is dropped, and every port with a
   * socket begins to probe for the services given, whatever it was asking for, and about hosts; the others are
   * left without a packet.
   */
  lemma RestartDoes(n: Net, jobs: seq<Job>, services: seq<Service>, p: Port) returns (m: Net)
    requires Ok(n) && NoRepeats(services) && Covers(jobs, n.pcbs.Keys) && p in n.pcbs
    ensures m == ProbeEach(Restarted(n), jobs, services, true, true) && m.named
    ensures m in Step(n, RestartAll(jobs, services))
    ensures if p in n.ready then Begun(n, m, p, services, true, true)
            else p !in m.ready && Of(m.queue, p) == [] && p in m.pcbs && m.pcbs[p] == n.pcbs[p]
  {
    m := ProbeEach(Restarted(n), jobs, services, true, true);
    RestartStep(n, jobs, services, m);
    var n1 := RestartedList(n);
    EachBegins(n1, jobs, services, true, true, p, n, m);
  }

  lemma RestartedList(n: Net) returns (m: Net)
    requires ListOk(n)
    ensures m == Restarted(n) && ListOk(m) && m.named && m.pcbs == n.pcbs && m.ready == n.ready && m.now == n.now
  {
    m := Restarted(n);
  }

  /** A failed probe is counted, in 16 bits, and that is all. */
  lemma FailureDoes(n: Net, port: Port, p: Port) returns (m: Net)
    requires Probing.OpOk(n, ProbeFailed(port))
    ensures m == Probing.Apply(n, ProbeFailed(port)) && port in m.pcbs
    ensures m.pcbs[port] == n.pcbs[port].(failed := if n.pcbs[port].failed == 0xFFFF then 0 else m.pcbs[port].failed)
    ensures n.pcbs[port].failed < 0xFFFF ==> m.pcbs[port].failed == n.pcbs[port].failed + 1
    ensures m.queue == n.queue && m.ready == n.ready && (p != port ==> p in Spared(n, m))
  {
    var failed := (n.pcbs[port].failed + 1) % 0x10000;
    m := Probing.Apply(n, ProbeFailed(port));
    OwnOnly(n, m, port, n.pcbs[port].(failed := failed), n.ready, p);
  }

  // ---------------------------------------------------------------- sending

  lemma TakenSpares(n: Net, port: Port, round: seq<Sent>, p: Port, m: Net)
    requires n.queue != [] && port == PortOf(n.queue[0]) && m == Taken(n, port, round)
    ensures p != port ==> p in Spared(n, m)
  {
    if p != port {
      Spare(n, m, p);
    }
  }

  /** A packet taken off the list goes back on, and the port's record changes. */
  lemma ResentDoes(n: Net, e: Entry, port: Port, pcb: Pcb, ms: nat, rest: seq<Entry>, p: Port) returns (m: Net)
    requires port == PortOf(e) && rest == Of(n.queue, port)
    ensures m == Became(Resent(n, e, ms), port, pcb)
    ensures Lists(m.queue, port, e.(sendAt := n.now + ms), rest)
    ensures p != port ==> p in Spared(n, m)
  {
    var e' := e.(sendAt := n.now + ms);
    var n1 := Resent(n, e, ms);
    m := Became(n1, port, pcb);
    OfInsertExactly(n.queue, e', port);
    OfInsert(n.queue, e', p);
    if p != port {
      Spare(n, n1, p);
      OwnOnly(n1, m, port, pcb, n1.ready, p);
      SparedTwice(n, n1, m, p);
    }
  }

  /** Another packet takes its place. */
  lemma ReplacedDoes(n: Net, port: Port, pcb: Pcb, said: Payload, e: Entry, p: Port) returns (m: Net)
    requires ListOk(n) && Of(n.queue, port) == [] && e == NewEntry(n, port, 250)
    ensures m == Became(Scheduled(n, port, said, 250), port, pcb) && Of(m.queue, port) == [e]
    ensures p != port ==> p in Spared(n, m)
  {
    var n1 := ScheduledOnly(n, port, said, 250, e, p);
    m := Became(n1, port, pcb);
    if p != port {
      OwnOnly(n1, m, port, pcb, n1.ready, p);
      SparedTwice(n, n1, m, p);
    }
  }

  /** The packet `e` comes back `ms` from now, and the state moves on. */
  ghost predicate ComesBack(n: Net, m: Net, e: Entry, rest: seq<Entry>, ms: nat, state: State) {
    var port := PortOf(e);
    && Lists(m.queue, port, e.(sendAt := n.now + ms), rest) && m.payloads == n.payloads
    && port in n.pcbs && port in m.pcbs && m.pcbs[port] == n.pcbs[port].(state := state)
  }

  /** It is gone. */
  ghost predicate IsGone(n: Net, m: Net, e: Entry, rest: seq<Entry>, state: State) {
    var port := PortOf(e);
    && Of(m.queue, port) == rest && m.payloads == n.payloads
    && port in n.pcbs && port in m.pcbs && m.pcbs[port] == n.pcbs[port].(state := state)
  }

  /** An announcement has taken its place, and the port's probing is over. */
  ghost predicate IsReplaced(n: Net, m: Net, e: Entry) {
    var port := PortOf(e);
    && Of(m.queue, port) == [Entry(n.nextId, n.now + 250, false, port.iface, port.proto)]
    && n.nextId in m.payloads && m.payloads[n.nextId].Answers?
    && port in m.pcbs && m.pcbs[port] == Pcb(ANNOUNCE_1, [], false, false, 0)
  }

  /** What sending `e` leads to, by the state of its port; `rest` are the port's other packets. */
  ghost predicate SentBy(n: Net, m: Net, e: Entry, rest: seq<Entry>, state: State) {
    match state
    case PROBE_1 => ComesBack(n, m, e, rest, 250, PROBE_2)
    case PROBE_2 => ComesBack(n, m, e, rest, 250, PROBE_3)
    case PROBE_3 => IsReplaced(n, m, e)
    case ANNOUNCE_1 => ComesBack(n, m, e, rest, 1000, ANNOUNCE_2)
    case ANNOUNCE_2 => ComesBack(n, m, e, rest, 1000, ANNOUNCE_3)
    case ANNOUNCE_3 => IsGone(n, m, e, rest, RUNNING)
    case _ => IsGone(n, m, e, rest, state)
  }

  /** `e` has been taken off the list, and `round` is what its port has sent. */
  ghost predicate TakenOff(n: Net, n1: Net, e: Entry, port: Port, round: seq<Sent>) {
    && n.queue != [] && port == PortOf(e) && n1 == Taken(n, port, round) && ListOk(n1)
    && port in n.pcbs && e.id in n.payloads
  }

  lemma AgainDoes(n: Net, n1: Net, e: Entry, port: Port, round: seq<Sent>, pcb: Pcb, p: Port) returns (m: Net)
    requires TakenOff(n, n1, e, port, round) && n.pcbs[port] == pcb
    requires pcb.state in {PROBE_1, PROBE_2, ANNOUNCE_1, ANNOUNCE_2}
    ensures m == AfterSending(n1, e, port, pcb, n.payloads[e.id])
    ensures SentBy(n, m, e, Of(n1.queue, port), pcb.state) && (p != port ==> p in Spared(n1, m))
  {
    m := ResentDoes(n1, e, port, Turned(pcb), if Asking(pcb.state) then 250 else 1000, Of(n1.queue, port), p);
  }

  lemma LastProbeDoes(n: Net, n1: Net, e: Entry, port: Port, round: seq<Sent>, pcb: Pcb, p: Port) returns (m: Net)
    requires TakenOff(n, n1, e, port, round) && n.pcbs[port] == pcb && pcb.state == PROBE_3 && Of(n1.queue, port) == []
    ensures m == AfterSending(n1, e, port, pcb, n.payloads[e.id])
    ensures IsReplaced(n, m, e) && (p != port ==> p in Spared(n1, m))
  {
    m := ReplacedDoes(n1, port, Turned(pcb), Announcement(n.payloads[e.id]), NewEntry(n1, port, 250), p);
  }

  lemma DoneDoes(n: Net, n1: Net, e: Entry, port: Port, round: seq<Sent>, pcb: Pcb, p: Port) returns (m: Net)
    requires TakenOff(n, n1, e, port, round) && n.pcbs[port] == pcb
    requires pcb.state !in {PROBE_1, PROBE_2, PROBE_3, ANNOUNCE_1, ANNOUNCE_2}
    ensures m == AfterSending(n1, e, port, pcb, n.payloads[e.id])
    ensures SentBy(n, m, e, Of(n1.queue, port), pcb.state) && (p != port ==> p in Spared(n1, m))
  {
    m := Became(n1, port, Turned(pcb));
    OwnOnly(n1, m, port, Turned(pcb), n1.ready, p);
  }

  /**
   * Sending: the head leaves the list and is recorded as sent. In the first two probe states it comes back 250 ms
   * later, in the first two announcing states a second later, and the state moves on by one; in the third probe state
   * an announcement takes its place, 250 ms later; otherwise it is gone, and the third announcing state gives way
   * to RUNNING. No other port is touched.
   */
  lemma SendDoes(n: Net, p: Port) returns (m: Net, rest: seq<Entry>)
    requires Ok(n) && HeadDue(n)
    ensures m == Transmit(n) && m in Step(n, Send)
    ensures Of(n.queue, PortOf(n.queue[0])) == [n.queue[0]] + rest
    ensures SentBy(n, m, n.queue[0], rest, n.pcbs[PortOf(n.queue[0])].state)
    ensures var port := PortOf(n.queue[0]);
            port in m.rounds && m.rounds[port] == n.rounds[port] + [Sent(n.now, n.payloads[n.queue[0].id])]
    ensures p != PortOf(n.queue[0]) ==> p in Spared(n, m)
  {
    var e, port := HeadOk(n);
    var round := n.rounds[port] + [Sent(n.now, n.payloads[e.id])];
    var n1 := TakenOk(n, e, port, round, p);
    rest := Of(n1.queue, port);
    SendStep(n, Transmit(n));
    var pcb := n.pcbs[port];
    if pcb.state.PROBE_3? {
      TakenLast(n, n1, e, port);
      m := LastProbeDoes(n, n1, e, port, round, pcb, p);
    } else if pcb.state in {PROBE_1, PROBE_2, ANNOUNCE_1, ANNOUNCE_2} {
      m := AgainDoes(n, n1, e, port, round, pcb, p);
    } else {
      m := DoneDoes(n, n1, e, port, round, pcb, p);
    }
    if p != port {
      TakenSpares(n, port, round, p, n1);
      SparedTwice(n, n1, m, p);
    }
  }

  // ---------------------------------------------------------------- removing a service

  /** `ss'` has the services of `ss` other than `s`. */
  ghost predicate LessOne(ss: seq<Service>, ss': seq<Service>, s: Service) {
    forall x :: x in ss' <==> x in ss && x != s
  }

  /** A packet without the records of a service: all else in it is as it was. */
  ghost predicate WithoutRecords(p: Payload, p': Payload, s: Service) {
    if p.Probe? then
      p'.Probe? && LessOne(p.servers, p'.servers, s) && p'.hosts == p.hosts && p'.addresses == p.addresses
    else
      && p'.Answers? && LessOne(p.services, p'.services, s) && LessOne(p.additional, p'.additional, s)
      && p'.hosts == p.hosts && p'.others == p.others && p'.extras == p.extras && p'.repeated == p.repeated
  }

  lemma StrippedIs(p: Payload, s: Service, asked: bool)
    ensures WithoutRecords(p, Stripped(p, s, asked), s)
  {
    if p.Probe? {
      RemovedMembers(p.servers, s);
    } else {
      RemovedMembers(p.services, s);
      RemovedMembers(p.additional, s);
    }
  }

  ghost predicate Awaits(todo: seq<Entry>, id: Id) {
    exists i :: 0 <= i < |todo| && todo[i].id == id
  }

  lemma {:induction false} StripLeavesOthers(n: Net, todo: seq<Entry>, s: Service, e: Entry)
    requires !Awaits(todo, e.id) && e.id in n.payloads
    ensures var m := StripAll(n, todo, s);
            e.id in m.payloads && m.payloads[e.id] == n.payloads[e.id] && (e in m.queue <==> e in n.queue)
    decreases |todo|
  {
    if !(todo == [] || todo[0].id !in n.payloads || PortOf(todo[0]) !in n.pcbs) {
      var n1 := StripPacket(n, todo[0], s);
      StripPacketList(n, todo[0], s, n1);
      assert todo[0].id != e.id && forall i :: 0 <= i < |todo[1..]| ==> todo[1..][i] == todo[i + 1];
      StripLeavesOthers(n1, todo[1..], s, e);
    }
  }

  lemma OtherPackets(todo: seq<Entry>)
    requires todo != [] && InOrder(todo)
    ensures InOrder(todo[1..]) && !Awaits(todo[1..], todo[0].id)
    ensures forall x <- todo[1..] :: x in todo && x.id != todo[0].id
  {
    assert forall i :: 0 <= i < |todo[1..]| ==> todo[1..][i] == todo[i + 1];
  }

  lemma OnePacketStripped(n: Net, e: Entry, s: Service, n1: Net)
    requires e in n.queue && e.id in n.payloads && PortOf(e) in n.pcbs && n1 == StripPacket(n, e, s)
    ensures e.id in n1.payloads && WithoutRecords(n.payloads[e.id], n1.payloads[e.id], s)
    ensures e in n1.queue <==> !Blank(n1.payloads[e.id])
  {
    StrippedIs(n.payloads[e.id], s, true);
    StrippedIs(n.payloads[e.id], s, false);
    FilterMember(n.queue, (x: Entry) => x.id != e.id, e);
  }

  /** The first packet's turn: what it says then, and whether it stays; the others wait for theirs. */
  lemma FirstStripped(n: Net, todo: seq<Entry>, s: Service) returns (n1: Net)
    requires Ok(n) && todo != [] && InOrder(todo) && forall e <- todo :: e in n.queue
    ensures todo[0].id in n.payloads && PortOf(todo[0]) in n.pcbs && n1 == StripPacket(n, todo[0], s) && Ok(n1)
    ensures InOrder(todo[1..]) && (forall e <- todo[1..] :: e in n1.queue) && !Awaits(todo[1..], todo[0].id)
    ensures forall e <- n.queue :: e.id != todo[0].id ==>
              e in n1.queue && e.id in n1.payloads && n1.payloads[e.id] == n.payloads[e.id]
  {
    assert todo[0] in todo && todo[0] in n.queue;
    n1 := StripPacket(n, todo[0], s);
    StripPacketKeeps(n, todo[0], s);
    StripPacketList(n, todo[0], s, n1);
    OtherPackets(todo);
  }

  lemma {:induction false} StripDoes(n: Net, todo: seq<Entry>, s: Service, e: Entry)
    requires Ok(n) && InOrder(todo) && (forall x <- todo :: x in n.queue) && e in todo
    ensures var m := StripAll(n, todo, s);
            && e.id in n.payloads && e.id in m.payloads && WithoutRecords(n.payloads[e.id], m.payloads[e.id], s)
            && (e in m.queue <==> !Blank(m.payloads[e.id]))
    decreases |todo|
  {
    var n1 := FirstStripped(n, todo, s);
    if e == todo[0] {
      OnePacketStripped(n, e, s, n1);
      StripLeavesOthers(n1, todo[1..], s, e);
    } else {
      var i :| 0 <= i < |todo| && todo[i] == e;
      assert todo[1..][i - 1] == e;
      StripDoes(n1, todo[1..], s, e);
    }
  }

  /** All its answers are the records of this service. */
  predicate AnswersFor(p: Payload, s: Service) {
    p.Answers? && p.hosts == {} && !p.others && p.services != [] && forall x <- p.services :: x == s
  }

  ghost predicate LosesAnswers(n: Net, todo: seq<Entry>, port: Port, s: Service) {
    exists e <- todo :: PortOf(e) == port && e.id in n.payloads && AnswersFor(n.payloads[e.id], s)
  }

  lemma AnswersGone(p: Payload, s: Service)
    requires p.Answers?
    ensures AnswersFor(p, s) <==> HasAnswers(p) && !HasAnswers(Stripped(p, s, false))
  {
    RemovedMembers(p.services, s);
    if p.services != [] {
      assert p.services[0] in p.services;
    }
    if Removed(p.services, s) != [] {
      assert Removed(p.services, s)[0] in Removed(p.services, s);
    }
  }

  /** An announcing port runs from now on if a packet of it answered for the service only; else it goes on. */
  lemma {:induction false} StripSettles(n: Net, todo: seq<Entry>, s: Service, port: Port)
    requires Ok(n) && InOrder(todo) && (forall x <- todo :: x in n.queue)
    requires port in n.pcbs && port in n.ready && !IsProbing(n.pcbs[port].state)
    ensures var m := StripAll(n, todo, s);
            port in m.pcbs && m.pcbs[port] ==
              if IsAnnouncing(n.pcbs[port].state) && LosesAnswers(n, todo, port, s) then
                n.pcbs[port].(state := RUNNING)
              else n.pcbs[port]
    decreases |todo|
  {
    if todo != [] {
      var n1 := FirstStripped(n, todo, s);
      var e := todo[0];
      assert e in todo && e in n.queue;
      OnePacketSettles(n, e, s, port, n1);
      StripSettles(n1, todo[1..], s, port);
      LosesLater(n, n1, todo, port, s);
    }
  }

  lemma OnePacketSettles(n: Net, e: Entry, s: Service, port: Port, n1: Net)
    requires Ok(n) && e in n.queue && e.id in n.payloads && PortOf(e) in n.pcbs && n1 == StripPacket(n, e, s)
    requires port in n.pcbs && port in n.ready && !IsProbing(n.pcbs[port].state)
    ensures port in n1.pcbs && n1.ready == n.ready && n1.pcbs[port] ==
              if IsAnnouncing(n.pcbs[port].state) && PortOf(e) == port && AnswersFor(n.payloads[e.id], s) then
                n.pcbs[port].(state := RUNNING)
              else n.pcbs[port]
  {
    if PortOf(e) == port {
      var p := ListedOk(n, e);
      assert QuietOk(n, port);
      AnswersGone(n.payloads[e.id], s);
    }
  }

  lemma LosesLater(n: Net, n1: Net, todo: seq<Entry>, port: Port, s: Service)
    requires todo != [] && forall e <- todo[1..] :: e.id in n.payloads && e.id in n1.payloads
                                                    && n1.payloads[e.id] == n.payloads[e.id]
    requires todo[0].id in n.payloads
    ensures LosesAnswers(n, todo, port, s) <==>
              (PortOf(todo[0]) == port && AnswersFor(n.payloads[todo[0].id], s)) || LosesAnswers(n1, todo[1..], port, s)
  {
    assert todo[0] in todo && todo == [todo[0]] + todo[1..];
  }

  /**
   * Removing a service: every packet loses its records and keeps all else, and stays listed exactly if something is
   * left in it; no packet is added. A port that is past its probing keeps its record, but for an announcing port
   * one of whose packets answered for this service only: it runs from now on.
   */
  lemma RemoveDoes(n: Net, s: Service, e: Entry, port: Port) returns (m: Net)
    requires Ok(n)
    ensures m == StripAll(n, n.queue, s) && m in Step(n, RemoveService(s)) && (e in m.queue ==> e in n.queue)
    ensures e in n.queue ==>
              && e.id in n.payloads && e.id in m.payloads && WithoutRecords(n.payloads[e.id], m.payloads[e.id], s)
              && (e in m.queue <==> !Blank(m.payloads[e.id]))
    ensures port in n.pcbs && port in n.ready && !IsProbing(n.pcbs[port].state) ==>
              port in m.pcbs && m.pcbs[port] ==
              if IsAnnouncing(n.pcbs[port].state) && LosesAnswers(n, n.queue, port, s) then
                n.pcbs[port].(state := RUNNING)
              else n.pcbs[port]
  {
    m := StripAll(n, n.queue, s);
    RemoveStep(n, RemoveService(s), m);
    StripAddsNone(n, n.queue, s, e);
    if e in n.queue {
      StripDoes(n, n.queue, s, e);
    }
    if port in n.pcbs && port in n.ready && !IsProbing(n.pcbs[port].state) {
      StripSettles(n, n.queue, s, port);
    }
  }

  lemma {:induction false} StripAddsNone(n: Net, todo: seq<Entry>, s: Service, e: Entry)
    ensures e in StripAll(n, todo, s).queue ==> e in n.queue
    decreases |todo|
  {
    if !(todo == [] || todo[0].id !in n.payloads || PortOf(todo[0]) !in n.pcbs) {
      var n1 := StripPacket(n, todo[0], s);
      StripPacketList(n, todo[0], s, n1);
      StripAddsNone(n1, todo[1..], s, e);
    }
  }
}
