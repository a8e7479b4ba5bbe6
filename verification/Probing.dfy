/**
 * Probing and announcing (section 8 of RFC 6762) as `mdns_pcb.c` does it: one state per
 * interface and protocol, all sharing the list of scheduled packets.
 */
module Probing {
  import opened Basics
  import opened ServiceLists
  import opened TxProtocol

  datatype Port = Port(iface: nat, proto: nat)

  datatype State = OFF | DUP | INIT | PROBE_1 | PROBE_2 | PROBE_3 | ANNOUNCE_1 | ANNOUNCE_2 | ANNOUNCE_3 | RUNNING

  datatype Pcb = Pcb(state: State, services: seq<Service>, ip: bool, running: bool, failed: nat)

  /**
   * What a scheduled packet asks or says. Of a probe: the services it asks for, those whose records it
   * offers, and the hosts it asks for and whose addresses it offers. Of an announcement or response: the
   * services its answer records belong to, the hosts whose addresses it answers with apart from those,
   * whether it has other answers, the services of its additional records, the hosts whose addresses it adds as
   * an authority, and whether it repeats questions it was asked.
   */
  datatype Payload =
    | Probe(questions: seq<Service>, servers: seq<Service>, hosts: set<nat>, addresses: set<nat>)
    | Answers(services: seq<Service>, hosts: set<nat>, others: bool, additional: seq<Service>, extras: set<nat>,
              repeated: bool)

  datatype Sent = Sent(at: nat, payload: Payload)

  /** `PCB_STATE_IS_PROBING`: it also covers a duplicate interface. */
  predicate IsProbing(s: State) {
    s.DUP? || s.INIT? || Asking(s)
  }

  predicate Asking(s: State) {
    s.PROBE_1? || s.PROBE_2? || s.PROBE_3?
  }

  predicate IsAnnouncing(s: State) {
    s.ANNOUNCE_1? || s.ANNOUNCE_2? || s.ANNOUNCE_3?
  }

  function Next(s: State): State
    requires Asking(s) || IsAnnouncing(s)
  {
    match s
    case PROBE_1 => PROBE_2
    case PROBE_2 => PROBE_3
    case PROBE_3 => ANNOUNCE_1
    case ANNOUNCE_1 => ANNOUNCE_2
    case ANNOUNCE_2 => ANNOUNCE_3
    case ANNOUNCE_3 => RUNNING
  }

  /** How many probes a port in this state has behind it. */
  function ProbesSent(s: State): nat {
    if s.PROBE_2? then 1 else if s.PROBE_3? then 2 else 0
  }

  const PROBE_GAP := 250

  // ---------------------------------------------------------------- packets of one port

  function PortOf(e: Entry): Port {
    Port(e.iface, e.proto)
  }

  function Of(q: seq<Entry>, port: Port): seq<Entry> {
    if q == [] then [] else (if PortOf(q[0]) == port then [q[0]] else []) + Of(q[1..], port)
  }

  lemma {:induction false} OfAppend(q: seq<Entry>, r: seq<Entry>, port: Port)
    ensures Of(q + r, port) == Of(q, port) + Of(r, port)
  {
    if q == [] {
      assert q + r == r;
    } else {
      assert (q + r)[1..] == q[1..] + r;
      OfAppend(q[1..], r, port);
      var mine, qs, rs := if PortOf(q[0]) == port then [q[0]] else [], Of(q[1..], port), Of(r, port);
      assert mine + (qs + rs) == mine + qs + rs;
    }
  }

  lemma OfOne(e: Entry, port: Port)
    ensures Of([e], port) == if PortOf(e) == port then [e] else []
  {
    assert [e][1..] == [];
  }

  lemma {:induction false} OfMember(q: seq<Entry>, port: Port, i: nat)
    requires i < |q| && PortOf(q[i]) == port
    ensures q[i] in Of(q, port)
  {
    if i > 0 {
      OfMember(q[1..], port, i - 1);
    }
  }

  lemma OfInsert(q: seq<Entry>, e: Entry, port: Port)
    ensures PortOf(e) != port ==> Of(Insert(q, e), port) == Of(q, port)
    ensures PortOf(e) == port && Of(q, port) == [] ==> Of(Insert(q, e), port) == [e]
  {
    var k := Slot(q, e.sendAt);
    assert q == q[..k] + q[k..];
    OfAppend(q[..k], q[k..], port);
    OfAppend(q[..k] + [e], q[k..], port);
    OfAppend(q[..k], [e], port);
    OfOne(e, port);
  }

  lemma {:induction false} OfCleared(q: seq<Entry>, cleared: Port, port: Port)
    ensures Of(Cleared(q, cleared.iface, cleared.proto), port) == if port == cleared then [] else Of(q, port)
  {
    if q != [] {
      OfCleared(q[1..], cleared, port);
      var h := if q[0].iface == cleared.iface && q[0].proto == cleared.proto then [] else [q[0]];
      OfAppend(h, Cleared(q[1..], cleared.iface, cleared.proto), port);
      OfOne(q[0], port);
    }
  }

  lemma OfInsertMembers(q: seq<Entry>, e: Entry, port: Port)
    ensures forall x <- Of(Insert(q, e), port) :: x == e || x in Of(q, port)
  {
    var k := Slot(q, e.sendAt);
    assert q == q[..k] + q[k..];
    OfAppend(q[..k], q[k..], port);
    OfAppend(q[..k] + [e], q[k..], port);
    OfAppend(q[..k], [e], port);
    OfOne(e, port);
  }

  lemma {:induction false} OfWithout(q: seq<Entry>, id: Id, port: Port)
    ensures Of(Without(q, id), port) == Without(Of(q, port), id)
  {
    if q != [] {
      OfWithout(q[1..], id, port);
      OfOne(q[0], port);
      var kept := if q[0].id != id then [q[0]] else [];
      OfAppend(kept, Without(q[1..], id), port);
      var mine := Of(q, port);
      if PortOf(q[0]) == port {
        assert mine[0] == q[0] && mine[1..] == Of(q[1..], port);
        assert Without(mine, id) == kept + Without(mine[1..], id);
        assert Of(kept, port) == kept;
      } else {
        assert mine == Of(q[1..], port);
        assert Of(kept, port) == [];
      }
    }
  }

  lemma {:induction false} WithoutNone(q: seq<Entry>, id: Id)
    requires forall e <- q :: e.id != id
    ensures Without(q, id) == q
  {
    if q != [] {
      WithoutNone(q[1..], id);
      assert q == [q[0]] + q[1..];
    }
  }

  lemma {:induction false} OfSource(q: seq<Entry>, port: Port, e: Entry)
    requires e in Of(q, port)
    ensures e in q && PortOf(e) == port
  {
    if !(PortOf(q[0]) == port && e == q[0]) {
      OfSource(q[1..], port, e);
    }
  }

  // ---------------------------------------------------------------- the responder

  /**
   * The state of all ports, which of them have their socket, the list of scheduled packets with what
   * each says, the clock, and whether a host name is set; and, for the theorems, what each port sent since
   * it last began to probe, and for which ports a removal since then took out another service's question.
   */
  datatype Net = Net(pcbs: map<Port, Pcb>, ready: set<Port>, queue: seq<Entry>, payloads: map<Id, Payload>,
                     nextId: Id, now: nat, named: bool, rounds: map<Port, seq<Sent>>, slipped: set<Port>)

  function NewEntry(n: Net, port: Port, ms: nat): Entry {
    Entry(n.nextId, n.now + ms, false, port.iface, port.proto)
  }

  function Scheduled(n: Net, port: Port, payload: Payload, ms: nat): Net {
    n.(queue := Insert(n.queue, NewEntry(n, port, ms)),
       payloads := n.payloads[n.nextId := payload], nextId := n.nextId + 1)
  }

  function Resent(n: Net, e: Entry, ms: nat): Net {
    n.(queue := Insert(n.queue, e.(sendAt := n.now + ms)))
  }

  function Became(n: Net, port: Port, pcb: Pcb): Net {
    n.(pcbs := n.pcbs[port := pcb])
  }

  /** The services a port asks for once `services` are to be probed: those it asks for already come last, once. */
  function AllProbed(pcb: Pcb, services: seq<Service>): seq<Service> {
    if IsProbing(pcb.state) then Fresh(services, pcb.services) + pcb.services else services
  }

  /** `mdns_priv_append_host_list_in_services`: the hosts of the services, or without any this device. */
  function AddressHosts(services: seq<Service>): (hosts: set<nat>)
    ensures hosts != {} && HostsOf(services) <= hosts
  {
    if services == [] then {SELF} else HostsOf(services)
  }

  /** `mdns_priv_create_probe_packet`. */
  function ProbeFor(services: seq<Service>, ip: bool): Payload {
    if ip then Probe(services, services, {SELF} + HostsOf(services), AddressHosts(services))
    else Probe(services, services, {}, {})
  }

  function RoundBegun(n: Net, port: Port): Net {
    n.(rounds := n.rounds[port := []], slipped := n.slipped - {port})
  }

  /** `mdns_priv_init_pcb_probe`: without a host name there is nothing to probe for. */
  function StartProbe(n: Net, port: Port, services: seq<Service>, ip: bool, jitter: nat): Net
    requires port in n.pcbs
  {
    var pcb := n.pcbs[port];
    var cleared := n.(queue := Cleared(n.queue, port.iface, port.proto));
    if !n.named then Became(cleared, port, pcb.(state := RUNNING))
    else
      var all := AllProbed(pcb, services);
      var ms := (if pcb.failed > 5 then 1000 else 120) + jitter;
      Became(Scheduled(RoundBegun(cleared, port), port, ProbeFor(all, pcb.ip || ip), ms),
             port, Pcb(PROBE_1, all, pcb.ip || ip, true, pcb.failed))
  }

  /**
   * `mdns_priv_create_announce_from_probe`: the addresses of the services' hosts are in it whether or not the
   * probe asked for any host.
   */
  function Announcement(probe: Payload): Payload {
    if probe.Probe? then Answers(probe.servers, HostsOf(probe.servers) + probe.addresses, false, [], {}, false)
    else probe
  }

  /** What `mdns_priv_pcb_schedule_tx_packet` does to the record of the port that has just sent a packet. */
  function Turned(pcb: Pcb): Pcb {
    if pcb.state.PROBE_3? then Pcb(ANNOUNCE_1, [], false, false, 0)
    else if Asking(pcb.state) || IsAnnouncing(pcb.state) then pcb.(state := Next(pcb.state))
    else pcb
  }

  /** And what becomes of the packet; `id` is the identity a new packet would get. */
  function Fate(state: State, id: Id): Verdict {
    match state
    case PROBE_1 | PROBE_2 => Again(PROBE_GAP)
    case PROBE_3 => Replace(id, PROBE_GAP)
    case ANNOUNCE_1 | ANNOUNCE_2 => Again(1000)
    case _ => Drop
  }

  /** Packet `e` of `port`, which said `said`, has left the list and is sent. */
  function AfterSending(n: Net, e: Entry, port: Port, pcb: Pcb, said: Payload): Net {
    match Fate(pcb.state, n.nextId)
    case Again(ms) => Became(Resent(n, e, ms), port, Turned(pcb))
    case Replace(_, ms) => Became(Scheduled(n, port, Announcement(said), ms), port, Turned(pcb))
    case Drop => Became(n, port, Turned(pcb))
  }

  /** `e` has left the list and `round` is what its port has sent. */
  function Taken(n: Net, port: Port, round: seq<Sent>): Net
    requires n.queue != []
  {
    n.(queue := n.queue[1..], rounds := n.rounds[port := round])
  }

  /** `handle_packet` on the packet at the head of the list. */
  function Transmit(n: Net): Net
    requires n.queue != [] && PortOf(n.queue[0]) in n.pcbs && PortOf(n.queue[0]) in n.rounds
             && n.queue[0].id in n.payloads
  {
    var e, port, said := n.queue[0], PortOf(n.queue[0]), n.payloads[n.queue[0].id];
    if n.pcbs[port].state.OFF? then n.(queue := n.queue[1..])
    else AfterSending(Taken(n, port, n.rounds[port] + [Sent(n.now, said)]), e, port, n.pcbs[port], said)
  }

  /** More services put into an announcement. */
  function WithMore(said: Payload, services: seq<Service>, ip: bool): Payload
    requires said.Answers?
  {
    said.(services := said.services + services, hosts := said.hosts + if ip then AddressHosts(services) else {})
  }

  /** `mdns_priv_create_announce_packet`. */
  function FreshAnnouncement(services: seq<Service>, ip: bool): Payload {
    Answers(services, {}, false, [], if ip then AddressHosts(services) else {}, false)
  }

  /** `mdns_priv_pcb_announce`. */
  function Announce(n: Net, port: Port, services: seq<Service>, ip: bool, jitter: nat): Net
    requires port in n.pcbs
  {
    var pcb, mine := n.pcbs[port], Of(n.queue, port);
    if port !in n.ready then n
    else if IsProbing(pcb.state) then StartProbe(n, port, services, ip, jitter)
    else if IsAnnouncing(pcb.state) then
      if mine == [] || mine[0].id !in n.payloads || n.payloads[mine[0].id].Probe? then n
      else
        var said := n.payloads[mine[0].id];
        var more := WithMore(said, services, ip);
        Became(n.(payloads := n.payloads[mine[0].id := more]), port, pcb.(state := ANNOUNCE_1))
    else if pcb.state.RUNNING? && n.named then
      Became(Scheduled(n, port, FreshAnnouncement(services, ip), 0), port, pcb.(state := ANNOUNCE_1))
    else n
  }

  /**
   * A packet without the records of service `s`; if the port was probing it, also without a question. The
   * records are recognized by their service, the question by the kind alone.
   */
  function Stripped(p: Payload, s: Service, asked: bool): Payload {
    match p
    case Probe(qs, ss, _, _) => p.(questions := if asked then Unasked(qs, s.kind) else qs, servers := Removed(ss, s))
    case Answers(ss, _, _, additional, _, _) => p.(services := Removed(ss, s), additional := Removed(additional, s))
  }

  predicate Blank(p: Payload) {
    match p
    case Probe(qs, ss, hosts, addresses) => qs == [] && ss == [] && hosts == {} && addresses == {}
    case Answers(ss, hosts, others, additional, extras, repeated) =>
      ss == [] && hosts == {} && !others && additional == [] && extras == {} && !repeated
  }

  predicate HasAnswers(p: Payload) {
    p.Answers? && (p.services != [] || p.hosts != {} || p.others)
  }

  /** `mdns_priv_pcb_check_probing_services` when service `s` goes away. */
  function CheckProbing(pcb: Pcb, s: Service, answersGone: bool): Pcb {
    if IsProbing(pcb.state) then
      if s !in pcb.services then pcb
      else if Removed(pcb.services, s) == [] && !pcb.ip then pcb.(services := [], running := false, state := RUNNING)
      else pcb.(services := Removed(pcb.services, s))
    else if IsAnnouncing(pcb.state) && answersGone then pcb.(state := RUNNING)
    else pcb
  }

  /** One packet's turn in `mdns_priv_remove_scheduled_service_packets`. */
  function StripPacket(n: Net, e: Entry, s: Service): Net
    requires e.id in n.payloads && PortOf(e) in n.pcbs
  {
    var port, before := PortOf(e), n.payloads[e.id];
    var probed := port in n.ready && IsProbing(n.pcbs[port].state) && s in n.pcbs[port].services;
    var after := Stripped(before, s, probed);
    var gone := HasAnswers(before) && !HasAnswers(after);
    n.(payloads := n.payloads[e.id := after],
       pcbs := n.pcbs[port := if port in n.ready then CheckProbing(n.pcbs[port], s, gone) else n.pcbs[port]],
       queue := if Blank(after) then Without(n.queue, e.id) else n.queue,
       slipped := if probed && !Leads(n.pcbs[port].services, s) then n.slipped + {port} else n.slipped)
  }

  /** A port loses its socket: its packets are dropped and its probing is forgotten. */
  function Deinit(n: Net, port: Port): Net {
    Became(n.(queue := Cleared(n.queue, port.iface, port.proto), ready := n.ready - {port}), port,
        Pcb(OFF, [], false, false, 0))
  }

  // ---------------------------------------------------------------- the discipline

  /**
   * `n` probes, each sent more than 250 ms after the one before, each carrying the records of all of
   * `services` and asking for exactly `hosts`; if `exact`, each also asking for all of the services.
   */
  predicate ProbedFor(round: seq<Sent>, n: nat, services: seq<Service>, hosts: set<nat>, exact: bool) {
    && |round| == n
    && (forall i :: 0 <= i < n ==> Offers(round[i].payload, services, hosts))
    && (exact ==> forall i :: 0 <= i < n ==> AsksFor(round[i].payload, services))
    && (forall i :: 0 <= i < n - 1 ==> round[i + 1].at > round[i].at + PROBE_GAP)
  }

  predicate Offers(p: Payload, services: seq<Service>, hosts: set<nat>) {
    p.Probe? && (forall s <- services :: s in p.servers) && p.hosts == hosts
  }

  predicate AsksFor(p: Payload, services: seq<Service>) {
    p.Probe? && forall s <- services :: s in p.questions
  }

  /** A probe about hosts asks for this device, the hosts of its services, and all whose addresses it offers. */
  predicate AboutHosts(p: Payload, services: seq<Service>, ip: bool)
    requires p.Probe?
  {
    if ip then SELF in p.hosts && HostsOf(services) <= p.addresses <= p.hosts && p.addresses != {}
    else p.hosts == {} && p.addresses == {}
  }

  /**
   * The probe for what the port is probing: it carries the records of exactly these services, and as many
   * questions of each kind; unless a question was confused, it asks for exactly these services.
   */
  predicate RightProbe(p: Payload, pcb: Pcb, exact: bool) {
    && p.Probe? && p.servers == pcb.services && AboutHosts(p, pcb.services, pcb.ip)
    && Kinds(p.questions) == Kinds(pcb.services) && (exact ==> p.questions == pcb.services)
  }

  /**
   * While a port is in a probe state, exactly one packet is scheduled for it, it is the probe for what is
   * being probed, it is due 250 ms after the previous one, and the earlier probes were about all of it too.
   */
  predicate ProbingOk(n: Net, port: Port)
    requires port in n.pcbs && port in n.rounds
  {
    var pcb, mine, round := n.pcbs[port], Of(n.queue, port), n.rounds[port];
    && n.named && port in n.ready && pcb.running && NoRepeats(pcb.services) && (pcb.services != [] || pcb.ip)
    && |mine| == 1 && mine[0].id in n.payloads && RightProbe(n.payloads[mine[0].id], pcb, port !in n.slipped)
    && ProbedFor(round, ProbesSent(pcb.state), pcb.services, n.payloads[mine[0].id].hosts, port !in n.slipped)
    && (round != [] ==> mine[0].sendAt == round[|round| - 1].at + PROBE_GAP)
  }

  /** Otherwise nothing is left of the probing, and no probe is scheduled. */
  predicate QuietOk(n: Net, port: Port)
    requires port in n.pcbs
  {
    var pcb, mine := n.pcbs[port], Of(n.queue, port);
    && pcb.services == [] && !pcb.ip && !pcb.running
    && (pcb.state.OFF? || pcb.state.DUP? || port !in n.ready ==> mine == [])
    && (forall e <- mine :: e.id in n.payloads && n.payloads[e.id].Answers?)
  }

  predicate PortOk(n: Net, port: Port)
    requires port in n.pcbs && port in n.rounds
  {
    if Asking(n.pcbs[port].state) then ProbingOk(n, port) else QuietOk(n, port)
  }

  ghost predicate ListOk(n: Net) {
    && InOrder(n.queue) && n.rounds.Keys == n.pcbs.Keys
    && forall e <- n.queue :: !e.queued && e.id < n.nextId && e.id in n.payloads && PortOf(e) in n.pcbs
  }

  /** The ports that meet it. */
  ghost function Fine(n: Net): set<Port> {
    set port <- n.pcbs.Keys | port in n.rounds && PortOk(n, port)
  }

  ghost predicate Ok(n: Net) {
    ListOk(n) && Fine(n) == n.pcbs.Keys
  }

  // ---------------------------------------------------------------- each step keeps it

  /** What a port's condition depends on. */
  lemma PortFrame(n: Net, m: Net, port: Port)
    requires port in n.pcbs && port in n.rounds && port in m.pcbs && port in m.rounds && PortOk(n, port)
    requires m.pcbs[port] == n.pcbs[port] && m.rounds[port] == n.rounds[port] && m.named == n.named
    requires (port in m.ready <==> port in n.ready) && (port in m.slipped <==> port in n.slipped)
    requires Of(m.queue, port) == Of(n.queue, port)
    requires forall e <- Of(n.queue, port) :: e.id in n.payloads ==>
             e.id in m.payloads && m.payloads[e.id] == n.payloads[e.id]
    ensures port in Fine(m)
  {
    var mine := Of(n.queue, port);
    if Asking(n.pcbs[port].state) {
      assert mine[0] in mine;
    }
  }

  /** A packet put on the list. */
  lemma InsertedOk(q: seq<Entry>, e: Entry)
    requires InOrder(q) && !e.queued && forall x <- q :: !x.queued && x.id != e.id
    ensures InOrder(Insert(q, e)) && forall x <- Insert(q, e) :: x in q || x == e
  {
    assert forall i :: 0 <= i < |q| ==> q[i] in q;
    var k := InsertKeepsOrder(q, e);
  }

  lemma ClearedOk(q: seq<Entry>, port: Port)
    requires InOrder(q)
    ensures InOrder(Cleared(q, port.iface, port.proto))
    ensures forall x <- Cleared(q, port.iface, port.proto) :: x in q
  {
    var keep := (e: Entry) => !(e.iface == port.iface && e.proto == port.proto);
    FilterKeepsOrder(q, keep);
    forall x | x in Filter(q, keep)
      ensures x in q
    {
      var j :| 0 <= j < |Filter(q, keep)| && Filter(q, keep)[j] == x;
      var i := FilterSource(q, keep, j);
    }
  }

  lemma ScheduledOk(n: Net, port: Port, payload: Payload, ms: nat, e: Entry, p: Port) returns (m: Net)
    requires ListOk(n) && port in n.pcbs && e == NewEntry(n, port, ms)
    ensures m == Scheduled(n, port, payload, ms) && ListOk(m)
    ensures e.id in m.payloads && m.payloads[e.id] == payload
    ensures Of(n.queue, port) == [] ==> Of(m.queue, port) == [e]
    ensures p in Fine(n) && p != port ==> p in Fine(m)
  {
    m := Scheduled(n, port, payload, ms);
    assert PortOf(e) == port;
    InsertedOk(n.queue, e);
    OfInsert(n.queue, e, port);
    if p in Fine(n) && p != port {
      OfInsert(n.queue, e, p);
      forall x | x in Of(n.queue, p)
        ensures x.id < n.nextId
      {
        OfSource(n.queue, p, x);
      }
      PortFrame(n, m, p);
    }
  }

  /** Every packet of the port dropped, the others untouched. */
  lemma PortClearedOk(n: Net, port: Port, p: Port) returns (m: Net)
    requires ListOk(n)
    ensures m == n.(queue := Cleared(n.queue, port.iface, port.proto)) && ListOk(m)
    ensures Of(m.queue, port) == []
    ensures p in Fine(n) && p != port ==> p in Fine(m)
  {
    m := n.(queue := Cleared(n.queue, port.iface, port.proto));
    ClearedOk(n.queue, port);
    OfCleared(n.queue, port, port);
    if p in Fine(n) && p != port {
      OfCleared(n.queue, port, p);
      PortFrame(n, m, p);
    }
  }

  /** A port's own records and socket do not matter to the other ports. */
  lemma OthersKeep(n: Net, m: Net, port: Port, p: Port)
    requires ListOk(n) && m.pcbs.Keys == n.pcbs.Keys && m.rounds.Keys == n.rounds.Keys
    requires m.queue == n.queue && m.payloads == n.payloads && m.nextId == n.nextId
    requires forall p <- n.pcbs :: p != port ==> m.pcbs[p] == n.pcbs[p] && m.rounds[p] == n.rounds[p]
    requires m.ready - {port} == n.ready - {port} && m.slipped - {port} == n.slipped - {port} && m.named == n.named
    ensures ListOk(m)
    ensures p in Fine(n) && p != port ==> p in Fine(m)
  {
    if p in Fine(n) && p != port {
      assert p in m.ready <==> p in m.ready - {port};
      assert p in n.ready <==> p in n.ready - {port};
      assert p in m.slipped <==> p in m.slipped - {port};
      assert p in n.slipped <==> p in n.slipped - {port};
      PortFrame(n, m, p);
    }
  }

  lemma AllProbedOk(pcb: Pcb, services: seq<Service>)
    requires NoRepeats(services) && NoRepeats(pcb.services)
    ensures NoRepeats(AllProbed(pcb, services))
    ensures forall s :: s in AllProbed(pcb, services) <==> s in services || (IsProbing(pcb.state) && s in pcb.services)
  {
    FreshMembers(services, pcb.services);
    FreshNoRepeats(services, pcb.services);
    if IsProbing(pcb.state) {
      NoRepeatsAppend(Fresh(services, pcb.services), pcb.services);
    }
  }

  lemma RoundBegins(m: Net, port: Port, pcb: Pcb, e: Entry)
    requires port in m.pcbs && port in m.rounds && m.pcbs[port] == pcb && m.rounds[port] == [] && port in m.ready
             && m.named
    requires pcb.state.PROBE_1? && pcb.running && NoRepeats(pcb.services) && (pcb.services != [] || pcb.ip)
    requires Of(m.queue, port) == [e] && e.id in m.payloads
             && m.payloads[e.id] == ProbeFor(pcb.services, pcb.ip)
    ensures port in Fine(m)
  {
  }

  /** The first probe of a round is put on a list that has no packet of the port. */
  lemma ProbeBegun(n: Net, port: Port, pcb: Pcb, ms: nat, p: Port) returns (m: Net)
    requires ListOk(n) && port in n.pcbs && port in n.ready && Of(n.queue, port) == [] && n.named
    requires pcb.state.PROBE_1? && pcb.running && NoRepeats(pcb.services) && (pcb.services != [] || pcb.ip)
    ensures m == Became(Scheduled(RoundBegun(n, port), port, ProbeFor(pcb.services, pcb.ip), ms), port, pcb)
    ensures ListOk(m) && port in Fine(m) && m.pcbs.Keys == n.pcbs.Keys
    ensures p in Fine(n) && p != port ==> p in Fine(m)
  {
    var n1 := RoundBegun(n, port);
    OthersKeep(n, n1, port, p);
    var e := NewEntry(n1, port, ms);
    var n2 := ScheduledOk(n1, port, ProbeFor(pcb.services, pcb.ip), ms, e, p);
    m := Became(n2, port, pcb);
    OthersKeep(n2, m, port, p);
    RoundBegins(m, port, pcb, e);
  }

  /** Nothing of a probing is left in the record. */
  predicate Idle(pcb: Pcb) {
    pcb.services == [] && !pcb.ip && !pcb.running && !Asking(pcb.state)
  }

  /** Without a host name the port just runs. */
  lemma UnnamedOk(n: Net, port: Port, p: Port) returns (m: Net)
    requires ListOk(n) && port in n.pcbs && port in n.ready && Of(n.queue, port) == [] && Idle(n.pcbs[port])
    ensures m == Became(n, port, n.pcbs[port].(state := RUNNING)) && ListOk(m) && port in Fine(m)
            && m.pcbs.Keys == n.pcbs.Keys
    ensures p in Fine(n) && p != port ==> p in Fine(m)
  {
    m := Became(n, port, n.pcbs[port].(state := RUNNING));
    OthersKeep(n, m, port, p);
    assert QuietOk(m, port);
  }

  lemma SomethingProbed(pcb: Pcb, services: seq<Service>)
    requires NoRepeats(services) && NoRepeats(pcb.services)
    ensures NoRepeats(AllProbed(pcb, services))
    ensures services != [] || (IsProbing(pcb.state) && pcb.services != []) ==> AllProbed(pcb, services) != []
  {
    AllProbedOk(pcb, services);
    if services != [] {
      assert services[0] in AllProbed(pcb, services);
    } else if IsProbing(pcb.state) && pcb.services != [] {
      assert pcb.services[0] in AllProbed(pcb, services);
    }
  }

  /** However the port was left, a started probe meets the discipline; without a host name nothing is probed. */
  lemma StartProbeOk(n: Net, port: Port, services: seq<Service>, ip: bool, jitter: nat, p: Port) returns (m: Net)
    requires ListOk(n) && port in n.pcbs && port in n.ready && (n.named || Idle(n.pcbs[port]))
    requires NoRepeats(services) && NoRepeats(n.pcbs[port].services)
    requires services != [] || ip || (IsProbing(n.pcbs[port].state) && n.pcbs[port].services != []) || n.pcbs[port].ip
    ensures m == StartProbe(n, port, services, ip, jitter) && ListOk(m) && port in Fine(m) && m.pcbs.Keys == n.pcbs.Keys
    ensures p in Fine(n) && p != port ==> p in Fine(m)
  {
    var pcb := n.pcbs[port];
    var n1 := PortClearedOk(n, port, p);
    if n.named {
      var all := AllProbed(pcb, services);
      SomethingProbed(pcb, services);
      m := ProbeBegun(n1, port, Pcb(PROBE_1, all, pcb.ip || ip, true, pcb.failed),
          (if pcb.failed > 5 then 1000 else 120) + jitter, p);
    } else {
      m := UnnamedOk(n1, port, p);
    }
  }

  lemma DeinitOk(n: Net, port: Port, p: Port) returns (m: Net)
    requires ListOk(n) && port in n.pcbs
    ensures m == Deinit(n, port) && ListOk(m) && port in Fine(m) && m.pcbs.Keys == n.pcbs.Keys
    ensures p in Fine(n) && p != port ==> p in Fine(m)
  {
    var n1 := PortClearedOk(n, port, p);
    m := Deinit(n, port);
    OthersKeep(n1, m, port, p);
  }

  // ---------------------------------------------------------------- transmitting

  /** The packet at the head leaves the list, and the port's round is recorded as `round`. */
  lemma TakenOk(n: Net, e: Entry, port: Port, round: seq<Sent>, p: Port) returns (m: Net)
    requires ListOk(n) && n.queue != [] && e == n.queue[0] && port == PortOf(e)
    ensures m == Taken(n, port, round) && ListOk(m)
    ensures Of(n.queue, port) == [e] + Of(m.queue, port)
    ensures forall x <- m.queue :: x.id != e.id
    ensures p in Fine(n) && p != port ==> p in Fine(m)
  {
    assert e in n.queue;
    m := Taken(n, port, round);
    TakenList(n, e, m);
    if p in Fine(n) && p != port {
      PortFrame(n, m, p);
    }
  }

  lemma TakenList(n: Net, e: Entry, m: Net)
    requires ListOk(n) && n.queue != [] && e == n.queue[0] && m.queue == n.queue[1..]
    ensures InOrder(m.queue) && (forall x <- m.queue :: x in n.queue && x.id != e.id)
  {
    assert forall i :: 0 <= i < |m.queue| ==> m.queue[i] == n.queue[i + 1];
  }

  lemma ResentFrame(n: Net, m: Net, e': Entry, port: Port, p: Port)
    requires ListOk(n) && port == PortOf(e') && m == n.(queue := Insert(n.queue, e'))
    ensures p in Fine(n) && p != port ==> p in Fine(m)
  {
    if p in Fine(n) && p != port {
      OfInsert(n.queue, e', p);
      PortFrame(n, m, p);
    }
  }

  lemma ResentListed(n: Net, e': Entry, port: Port) returns (m: Net)
    requires ListOk(n) && port == PortOf(e') && port in n.pcbs && !e'.queued && e'.id < n.nextId && e'.id in n.payloads
    requires forall x <- n.queue :: x.id != e'.id
    ensures m == n.(queue := Insert(n.queue, e')) && ListOk(m)
  {
    InsertedOk(n.queue, e');
    m := n.(queue := Insert(n.queue, e'));
  }

  /** A packet that was taken off goes back on, due `ms` from now. */
  lemma ResentOk(n: Net, e: Entry, e': Entry, port: Port, ms: nat, p: Port) returns (m: Net)
    requires ListOk(n) && port == PortOf(e) && port in n.pcbs && !e.queued && e.id < n.nextId && e.id in n.payloads
    requires e' == e.(sendAt := n.now + ms) && forall x <- n.queue :: x.id != e.id
    ensures m == Resent(n, e, ms) && ListOk(m)
    ensures Of(n.queue, port) == [] ==> Of(m.queue, port) == [e']
    ensures forall x <- Of(m.queue, port) :: x == e' || x in Of(n.queue, port)
    ensures p in Fine(n) && p != port ==> p in Fine(m)
  {
    m := ResentListed(n, e', port);
    OfInsert(n.queue, e', port);
    OfInsertMembers(n.queue, e', port);
    ResentFrame(n, m, e', port, p);
  }

  /** One more probe, sent more than 250 ms after the last. */
  lemma RoundExtends(round: seq<Sent>, k: nat, services: seq<Service>, hosts: set<nat>, exact: bool, sent: Sent)
    requires ProbedFor(round, k, services, hosts, exact) && Offers(sent.payload, services, hosts)
    requires exact ==> AsksFor(sent.payload, services)
    requires round != [] ==> sent.at > round[|round| - 1].at + PROBE_GAP
    ensures ProbedFor(round + [sent], k + 1, services, hosts, exact)
  {
  }

  /** The condition of a port after its first or second probe. */
  lemma {:induction false} RoundGoesOn(n: Net, m: Net, port: Port, pcb: Pcb, round: seq<Sent>, e: Entry, e': Entry)
    requires port in n.pcbs && port in n.rounds && n.pcbs[port] == pcb && n.rounds[port] == round && ProbingOk(n, port)
    requires (pcb.state.PROBE_1? || pcb.state.PROBE_2?) && Of(n.queue, port) == [e] && e.sendAt < n.now
             && e.id in n.payloads
    requires m.pcbs == n.pcbs[port := Turned(pcb)]
             && m.rounds == n.rounds[port := round + [Sent(n.now, n.payloads[e.id])]]
    requires m.payloads == n.payloads && m.ready == n.ready && m.slipped == n.slipped && m.named == n.named
    requires Of(m.queue, port) == [e'] && e' == e.(sendAt := n.now + PROBE_GAP)
    ensures port in Fine(m)
  {
    var said := n.payloads[e.id];
    RoundExtends(round, ProbesSent(pcb.state), pcb.services, said.hosts, port !in n.slipped, Sent(n.now, said));
    assert ProbingOk(m, port);
  }

  /** The packet at the head is due (and known, as every listed packet is). */
  ghost predicate HeadDue(n: Net) {
    && n.queue != [] && n.queue[0].sendAt < n.now
    && PortOf(n.queue[0]) in n.pcbs && PortOf(n.queue[0]) in n.rounds && n.queue[0].id in n.payloads
  }

  lemma HeadOk(n: Net) returns (e: Entry, port: Port)
    requires Ok(n) && n.queue != []
    ensures e == n.queue[0] && port == PortOf(e) && e in n.queue && port in n.pcbs && port in n.rounds
    ensures e.id in n.payloads && port in Fine(n) && PortOk(n, port) && port in n.ready
    ensures e in Of(n.queue, port) && Of(n.queue, port)[0] == e
  {
    e := n.queue[0];
    assert e in n.queue;
    port := PortOf(e);
    assert Of(n.queue, port)[0] == e;
  }

  /** Packet `e` at the head is due, and its port is `port`. */
  ghost predicate Due(n: Net, e: Entry, port: Port) {
    && ListOk(n) && n.queue != [] && e == n.queue[0] && port == PortOf(e) && e.sendAt < n.now
    && e in n.queue && e.id in n.payloads && port in n.pcbs && port in n.rounds && port in n.ready
  }

  lemma TakenLast(n: Net, m: Net, e: Entry, port: Port)
    requires port in n.pcbs && port in n.rounds && ProbingOk(n, port) && Of(n.queue, port) == [e] + Of(m.queue, port)
    ensures Of(m.queue, port) == []
  {
    assert |Of(n.queue, port)| == 1;
  }

  /** The packet at the head is sent and goes back on the list. */
  lemma SentAgain(n: Net, e: Entry, e': Entry, port: Port, round: seq<Sent>, said: Payload, ms: nat, p: Port)
    returns (m: Net, rest: seq<Entry>)
    requires Due(n, e, port) && Fate(n.pcbs[port].state, n.nextId) == Again(ms) && e' == e.(sendAt := n.now + ms)
    ensures m == AfterSending(Taken(n, port, round), e, port, n.pcbs[port], said)
    ensures ListOk(m) && m.pcbs == n.pcbs[port := Turned(n.pcbs[port])] && m.rounds == n.rounds[port := round]
    ensures m.payloads == n.payloads && m.ready == n.ready && m.slipped == n.slipped && m.named == n.named
    ensures Of(n.queue, port) == [e] + rest && (forall x <- Of(m.queue, port) :: x == e' || x in rest)
    ensures rest == [] ==> Of(m.queue, port) == [e']
    ensures p in Fine(n) && p != port ==> p in Fine(m)
  {
    var n1 := TakenOk(n, e, port, round, p);
    rest := Of(n1.queue, port);
    var n2 := ResentOk(n1, e, e', port, ms, p);
    m := Became(n2, port, Turned(n.pcbs[port]));
    OthersKeep(n2, m, port, p);
  }

  lemma AskedAgain(n: Net, e: Entry, port: Port, pcb: Pcb, round: seq<Sent>, said: Payload, p: Port) returns (m: Net)
    requires Due(n, e, port) && ProbingOk(n, port) && n.rounds[port] == round && n.payloads[e.id] == said
    requires n.pcbs[port] == pcb && (pcb.state.PROBE_1? || pcb.state.PROBE_2?)
    ensures m == AfterSending(Taken(n, port, round + [Sent(n.now, said)]), e, port, pcb, said)
    ensures ListOk(m) && m.pcbs.Keys == n.pcbs.Keys && port in Fine(m)
    ensures p in Fine(n) && p != port ==> p in Fine(m)
  {
    var sent, e', rest := Sent(n.now, said), e.(sendAt := n.now + PROBE_GAP), [];
    m, rest := SentAgain(n, e, e', port, round + [sent], said, PROBE_GAP, p);
    assert |Of(n.queue, port)| == 1;
    RoundGoesOn(n, m, port, pcb, round, e, e');
  }

  lemma Settled(m: Net, port: Port, e: Entry)
    requires port in m.pcbs && port in m.rounds && port in m.ready
             && m.pcbs[port] == Pcb(ANNOUNCE_1, [], false, false, 0)
    requires Of(m.queue, port) == [e] && e.id in m.payloads && m.payloads[e.id].Answers?
    ensures port in Fine(m)
  {
  }

  lemma AskedLast(n: Net, h: Entry, port: Port, pcb: Pcb, said: Payload, e: Entry, p: Port) returns (m: Net)
    requires Due(n, h, port) && ProbingOk(n, port) && n.payloads[h.id] == said
    requires n.pcbs[port] == pcb && pcb.state.PROBE_3? && e == NewEntry(n, port, PROBE_GAP)
    ensures m == AfterSending(Taken(n, port, n.rounds[port] + [Sent(n.now, said)]), h, port, pcb, said)
    ensures ListOk(m) && m.pcbs.Keys == n.pcbs.Keys && port in Fine(m)
    ensures p in Fine(n) && p != port ==> p in Fine(m)
    ensures m.rounds == n.rounds[port := n.rounds[port] + [Sent(n.now, said)]]
    ensures Of(m.queue, port) == [e] && e.id in m.payloads && m.payloads[e.id] == Announcement(said)
  {
    var n1 := TakenOk(n, h, port, n.rounds[port] + [Sent(n.now, said)], p);
    TakenLast(n, n1, h, port);
    var n2 := ScheduledOk(n1, port, Announcement(said), PROBE_GAP, e, p);
    m := Became(n2, port, Turned(pcb));
    OthersKeep(n2, m, port, p);
    Settled(m, port, e);
  }

  /**
   * The packet that takes a port out of its last probe state is the third probe of a round of exactly
   * three, each sent more than 250 ms after the one before; all three carried the records of every service that
   * is then announced, and asked for all of them unless a question was confused. The addresses of the services'
   * hosts are announced in any case; all three probes asked for every host of the announcement if the
   * round was about hosts, and for none otherwise.
   */
  lemma ThirdProbe(n: Net, h: Entry, port: Port, pcb: Pcb, said: Payload, e: Entry) returns (m: Net, hosts: set<nat>)
    requires Due(n, h, port) && ProbingOk(n, port) && n.payloads[h.id] == said
    requires n.pcbs[port] == pcb && pcb.state.PROBE_3? && e == NewEntry(n, port, PROBE_GAP)
    ensures m == AfterSending(Taken(n, port, n.rounds[port] + [Sent(n.now, said)]), h, port, pcb, said)
    ensures port in m.rounds && ProbedFor(m.rounds[port], 3, pcb.services, hosts, port !in n.slipped)
    ensures Of(m.queue, port) == [e] && e.id in m.payloads && Announces(m.payloads[e.id], pcb, hosts)
  {
    var sent := Sent(n.now, said);
    hosts := said.hosts;
    RoundExtends(n.rounds[port], 2, pcb.services, hosts, port !in n.slipped, sent);
    m := AskedLast(n, h, port, pcb, said, e, port);
    AnnouncementIs(said, pcb, port !in n.slipped);
  }

  /**
   * The announcement after a round of probes that asked for `hosts`: of the services probed and the hosts that
   * offer them. Each host it names was asked for if and only if the round was about hosts.
   */
  predicate Announces(p: Payload, pcb: Pcb, hosts: set<nat>) {
    && p.Answers? && p.services == pcb.services && !p.others && p.additional == [] && p.extras == {} && !p.repeated
    && HostsOf(pcb.services) <= p.hosts && (!pcb.ip ==> p.hosts == HostsOf(pcb.services)) && p.hosts != {}
    && (if pcb.ip then p.hosts + {SELF} <= hosts else hosts == {})
  }

  lemma AnnouncementIs(said: Payload, pcb: Pcb, exact: bool)
    requires RightProbe(said, pcb, exact) && (pcb.services != [] || pcb.ip)
    ensures Announces(Announcement(said), pcb, said.hosts)
  {
  }

  lemma StaysQuiet(n: Net, m: Net, port: Port)
    requires port in n.pcbs && port in n.rounds && QuietOk(n, port) && port in n.ready
    requires port in m.pcbs && port in m.rounds && port in m.ready
    requires !Asking(m.pcbs[port].state) && !m.pcbs[port].state.OFF? && !m.pcbs[port].state.DUP?
    requires m.pcbs[port] == n.pcbs[port].(state := m.pcbs[port].state)
    requires forall x <- Of(m.queue, port) ::
               x.id in m.payloads && (m.payloads[x.id].Answers? || (x in Of(n.queue, port) && m.payloads == n.payloads))
    ensures port in Fine(m)
  {
  }

  lemma AgainQuiet(n: Net, m: Net, port: Port, e: Entry, e': Entry, rest: seq<Entry>)
    requires port in n.pcbs && port in n.rounds && QuietOk(n, port) && port in n.ready
             && Of(n.queue, port) == [e] + rest
    requires port in m.pcbs && port in m.rounds && port in m.ready
    requires !Asking(m.pcbs[port].state) && !m.pcbs[port].state.OFF? && !m.pcbs[port].state.DUP?
    requires m.pcbs[port] == n.pcbs[port].(state := m.pcbs[port].state) && m.payloads == n.payloads && e'.id == e.id
    requires forall x <- Of(m.queue, port) :: x == e' || x in rest
    ensures port in Fine(m)
  {
    var mine := Of(n.queue, port);
    assert mine[0] == e && e in mine && forall x <- rest :: x in mine;
    assert QuietOk(m, port);
  }

  /** An announcement is repeated a second later. */
  lemma AnnouncedAgain(n: Net, e: Entry, port: Port, pcb: Pcb, round: seq<Sent>, said: Payload, p: Port)
    returns (m: Net)
    requires Due(n, e, port) && QuietOk(n, port) && n.payloads[e.id] == said && e in Of(n.queue, port)
    requires n.pcbs[port] == pcb && (pcb.state.ANNOUNCE_1? || pcb.state.ANNOUNCE_2?)
    ensures m == AfterSending(Taken(n, port, round), e, port, pcb, said)
    ensures ListOk(m) && m.pcbs.Keys == n.pcbs.Keys && port in Fine(m)
    ensures p in Fine(n) && p != port ==> p in Fine(m)
  {
    var e', rest := e.(sendAt := n.now + 1000), [];
    m, rest := SentAgain(n, e, e', port, round, said, 1000, p);
    AgainQuiet(n, m, port, e, e', rest);
  }

  /** The last announcement, or a response, is done with. */
  lemma AnsweredLast(n: Net, e: Entry, port: Port, pcb: Pcb, round: seq<Sent>, said: Payload, p: Port) returns (m: Net)
    requires Due(n, e, port) && QuietOk(n, port)
    requires n.pcbs[port] == pcb && (pcb.state.ANNOUNCE_3? || pcb.state.RUNNING? || pcb.state.INIT?)
    ensures m == AfterSending(Taken(n, port, round), e, port, pcb, said)
    ensures ListOk(m) && m.pcbs.Keys == n.pcbs.Keys && port in Fine(m)
    ensures p in Fine(n) && p != port ==> p in Fine(m)
  {
    var n1 := TakenOk(n, e, port, round, p);
    m := Became(n1, port, Turned(pcb));
    OthersKeep(n1, m, port, p);
    StaysQuiet(n, m, port);
  }

  lemma TransmitKeeps(n: Net, p: Port) returns (m: Net)
    requires Ok(n) && HeadDue(n)
    ensures m == Transmit(n) && ListOk(m) && m.pcbs.Keys == n.pcbs.Keys && (p in n.pcbs ==> p in Fine(m))
  {
    var e, port := HeadOk(n);
    var pcb, said := n.pcbs[port], n.payloads[e.id];
    var round := n.rounds[port] + [Sent(n.now, said)];
    match pcb.state
    case PROBE_1 | PROBE_2 => m := AskedAgain(n, e, port, pcb, n.rounds[port], said, p);
    case PROBE_3 => m := AskedLast(n, e, port, pcb, said, NewEntry(n, port, PROBE_GAP), p);
    case ANNOUNCE_1 | ANNOUNCE_2 => m := AnnouncedAgain(n, e, port, pcb, round, said, p);
    case _ => m := AnsweredLast(n, e, port, pcb, round, said, p);
  }

  // ---------------------------------------------------------------- announcing and responding

  lemma AnsweredAlso(n: Net, m: Net, port: Port, e: Entry)
    requires ListOk(n) && port in n.pcbs && QuietOk(n, port) && port in n.ready
    requires port in m.pcbs && port in m.rounds && port in m.ready
    requires !Asking(m.pcbs[port].state) && !m.pcbs[port].state.OFF? && !m.pcbs[port].state.DUP?
    requires m.pcbs[port] == n.pcbs[port].(state := m.pcbs[port].state)
    requires e.id in m.payloads && m.payloads[e.id].Answers? && m.payloads == n.payloads[e.id := m.payloads[e.id]]
    requires forall x <- Of(m.queue, port) :: x == e || x in Of(n.queue, port)
    ensures port in Fine(m)
  {
  }

  /** A packet with answers is scheduled for a port that is past its probing. */
  lemma RespondOk(n: Net, port: Port, said: Payload, ms: nat, state: State, p: Port) returns (m: Net)
    requires Ok(n) && port in n.pcbs && port in n.ready && said.Answers?
    requires !Asking(n.pcbs[port].state) && !Asking(state) && !state.OFF? && !state.DUP?
    ensures m == Became(Scheduled(n, port, said, ms), port, n.pcbs[port].(state := state))
    ensures ListOk(m) && m.pcbs.Keys == n.pcbs.Keys && (p in n.pcbs ==> p in Fine(m))
  {
    var e := NewEntry(n, port, ms);
    var n1 := ScheduledOk(n, port, said, ms, e, p);
    m := Became(n1, port, n.pcbs[port].(state := state));
    OthersKeep(n1, m, port, p);
    OfInsertMembers(n.queue, e, port);
    AnsweredAlso(n, m, port, e);
  }

  /** More services are put into the packet already scheduled. */
  lemma EnlargedOk(n: Net, port: Port, id: Id, said: Payload, e: Entry, p: Port) returns (m: Net)
    requires Ok(n) && port in n.pcbs && port in n.ready && IsAnnouncing(n.pcbs[port].state)
    requires e in Of(n.queue, port) && id == e.id && said.Answers?
    ensures m == Became(n.(payloads := n.payloads[id := said]), port, n.pcbs[port].(state := ANNOUNCE_1))
    ensures ListOk(m) && m.pcbs.Keys == n.pcbs.Keys && (p in n.pcbs ==> p in Fine(m))
  {
    OfSource(n.queue, port, e);
    m := Became(n.(payloads := n.payloads[id := said]), port, n.pcbs[port].(state := ANNOUNCE_1));
    AnsweredAlso(n, m, port, e);
    if p in n.pcbs && p != port {
      OtherIds(n.queue, e, p);
      PortFrame(n, m, p);
    }
  }

  lemma OtherIds(q: seq<Entry>, e: Entry, p: Port)
    requires DistinctIds(q) && e in q && PortOf(e) != p
    ensures forall x <- Of(q, p) :: x.id != e.id
  {
    forall x | x in Of(q, p)
      ensures x.id != e.id
    {
      OfSource(q, p, x);
    }
  }

  lemma AnnounceKeeps(n: Net, port: Port, services: seq<Service>, ip: bool, jitter: nat, p: Port) returns (m: Net)
    requires Ok(n) && port in n.pcbs && NoRepeats(services) && (services != [] || ip)
    ensures m == Announce(n, port, services, ip, jitter)
    ensures ListOk(m) && m.pcbs.Keys == n.pcbs.Keys && (p in n.pcbs ==> p in Fine(m))
  {
    var pcb, mine := n.pcbs[port], Of(n.queue, port);
    m := n;
    if port in n.ready {
      assert port in Fine(n);
      if IsProbing(pcb.state) {
        m := StartProbeOk(n, port, services, ip, jitter, p);
      } else if IsAnnouncing(pcb.state) {
        if mine != [] {
          assert mine[0] in mine;
          var said := n.payloads[mine[0].id];
          var more := WithMore(said, services, ip);
          m := EnlargedOk(n, port, mine[0].id, more, mine[0], p);
        }
      } else if pcb.state.RUNNING? && n.named {
        m := RespondOk(n, port, FreshAnnouncement(services, ip), 0, ANNOUNCE_1, p);
      }
    }
  }

  // ---------------------------------------------------------------- a service goes away

  /** The packet carries records of the service. */
  predicate Mentions(p: Payload, s: Service) {
    match p
    case Probe(_, ss, _, _) => s in ss
    case Answers(ss, _, _, additional, _, _) => s in ss || s in additional
  }

  /**
   * Announcing services on a ready port that is probing, has an announcement scheduled, or is running puts
   * every one of them into a scheduled packet of the port, which starts its round over. Without a host name
   * only a scheduled announcement takes them.
   */
  lemma AnnouncedServicesListed(n: Net, port: Port, services: seq<Service>, ip: bool, jitter: nat, s: Service)
    returns (e: Entry)
    requires Ok(n) && port in n.pcbs && port in n.ready && s in services && NoRepeats(services)
    requires || (n.named && (IsProbing(n.pcbs[port].state) || n.pcbs[port].state.RUNNING?))
             || (IsAnnouncing(n.pcbs[port].state) && Of(n.queue, port) != [])
    ensures var m := Announce(n, port, services, ip, jitter);
            && e in Of(m.queue, port) && e.id in m.payloads && Mentions(m.payloads[e.id], s)
            && port in m.pcbs && (m.pcbs[port].state.PROBE_1? || m.pcbs[port].state.ANNOUNCE_1?)
  {
    assert port in Fine(n);
    if IsProbing(n.pcbs[port].state) {
      e := ProbedListed(n, port, services, ip, jitter, s);
    } else if IsAnnouncing(n.pcbs[port].state) {
      e := Of(n.queue, port)[0];
      assert e in Of(n.queue, port);
    } else {
      e := InsertedListed(n.queue, NewEntry(n, port, 0), port);
    }
  }

  lemma ProbedListed(n: Net, port: Port, services: seq<Service>, ip: bool, jitter: nat, s: Service) returns (e: Entry)
    requires ListOk(n) && port in Fine(n) && port in n.ready && n.named && s in services && NoRepeats(services)
    ensures var m := StartProbe(n, port, services, ip, jitter);
            && e in Of(m.queue, port) && e.id in m.payloads && Mentions(m.payloads[e.id], s)
            && port in m.pcbs && m.pcbs[port].state.PROBE_1?
  {
    FineRecord(n, port);
    var m := StartProbeOk(n, port, services, ip, jitter, port);
    AllProbedOk(n.pcbs[port], services);
    assert PortOk(m, port);
    e := Of(m.queue, port)[0];
    assert e in Of(m.queue, port);
  }

  lemma InsertedListed(q: seq<Entry>, e: Entry, port: Port) returns (e': Entry)
    requires PortOf(e) == port
    ensures e' == e && e in Of(Insert(q, e), port)
  {
    e' := e;
    var k := Slot(q, e.sendAt);
    assert Insert(q, e)[k] == e;
    OfMember(Insert(q, e), port, k);
  }

  lemma StrippedIsSilent(p: Payload, s: Service, asked: bool)
    ensures !Mentions(Stripped(p, s, asked), s)
  {
    if p.Answers? {
      RemovedMembers(p.services, s);
      RemovedMembers(p.additional, s);
    } else {
      RemovedMembers(p.servers, s);
    }
  }

  lemma {:induction false} FilterMember(q: seq<Entry>, keep: Entry -> bool, x: Entry)
    ensures x in Filter(q, keep) <==> x in q && keep(x)
  {
    if q != [] {
      FilterMember(q[1..], keep, x);
    }
  }

  /** What is known of one packet changes, and the record of its port. */
  lemma RewrittenOk(n: Net, e: Entry, port: Port, after: Payload, pcb: Pcb, slips: bool, p: Port) returns (m: Net)
    requires ListOk(n) && e in n.queue && port == PortOf(e) && port in n.pcbs
    ensures m == n.(payloads := n.payloads[e.id := after], pcbs := n.pcbs[port := pcb],
                    slipped := if slips then n.slipped + {port} else n.slipped)
    ensures ListOk(m) && m.pcbs.Keys == n.pcbs.Keys
    ensures p in Fine(n) && p != port ==> p in Fine(m)
  {
    m := n.(payloads := n.payloads[e.id := after], pcbs := n.pcbs[port := pcb],
            slipped := if slips then n.slipped + {port} else n.slipped);
    if p in Fine(n) && p != port {
      OtherIds(n.queue, e, p);
      PortFrame(n, m, p);
    }
  }

  lemma DetachedOk(n: Net, e: Entry, port: Port, p: Port) returns (m: Net)
    requires ListOk(n) && e in n.queue && port == PortOf(e) && port in n.pcbs
    ensures m == n.(queue := Without(n.queue, e.id)) && ListOk(m)
    ensures Of(m.queue, port) == Without(Of(n.queue, port), e.id)
    ensures forall x :: x in m.queue <==> x in n.queue && x.id != e.id
    ensures forall x <- Of(m.queue, port) :: x in Of(n.queue, port)
    ensures p in Fine(n) && p != port ==> p in Fine(m)
  {
    m := n.(queue := Without(n.queue, e.id));
    var keep := (x: Entry) => x.id != e.id;
    FilterKeepsOrder(n.queue, keep);
    forall x
      ensures x in m.queue <==> x in n.queue && x.id != e.id
      ensures x in Of(m.queue, port) ==> x in Of(n.queue, port)
    {
      FilterMember(n.queue, keep, x);
      OfWithout(n.queue, e.id, port);
      FilterMember(Of(n.queue, port), keep, x);
    }
    OfWithout(n.queue, e.id, port);
    if p in Fine(n) && p != port {
      OtherIds(n.queue, e, p);
      OfWithout(n.queue, e.id, p);
      WithoutNone(Of(n.queue, p), e.id);
      PortFrame(n, m, p);
    }
  }

  lemma LoneProbeStripped(n: Net, m: Net, e: Entry, port: Port, pcb: Pcb, s: Service)
    requires port in n.pcbs && port in n.rounds && n.pcbs[port] == pcb && Asking(pcb.state) && ProbingOk(n, port)
    requires Of(n.queue, port) == [e] && s in pcb.services && (Removed(pcb.services, s) != [] || pcb.ip)
    requires m.named
    requires port in m.pcbs && port in m.rounds && m.rounds[port] == n.rounds[port] && m.ready == n.ready
    requires Of(m.queue, port) == [e] && m.pcbs[port] == pcb.(services := Removed(pcb.services, s))
    requires e.id in m.payloads && m.payloads[e.id] == Stripped(n.payloads[e.id], s, true)
    requires port in m.slipped <==> port in n.slipped || !Leads(pcb.services, s)
    ensures port in Fine(m)
  {
    var hosts := n.payloads[e.id].hosts;
    FewerProbed(n.rounds[port], ProbesSent(pcb.state), pcb, s, hosts, port !in n.slipped, port !in m.slipped);
    StripLeavesRight(n.payloads[e.id], pcb, s, port !in n.slipped, port !in m.slipped);
    RemovedNoRepeats(pcb.services, s);
  }

  lemma FewerProbed(round: seq<Sent>, k: nat, pcb: Pcb, s: Service, hosts: set<nat>, exact: bool, exact': bool)
    requires ProbedFor(round, k, pcb.services, hosts, exact) && (exact' ==> exact)
    ensures ProbedFor(round, k, Removed(pcb.services, s), hosts, exact')
  {
    RemovedMembers(pcb.services, s);
  }

  lemma StripLeavesRight(p: Payload, pcb: Pcb, s: Service, exact: bool, exact': bool)
    requires RightProbe(p, pcb, exact) && NoRepeats(pcb.services) && s in pcb.services
    requires exact' ==> exact && Leads(pcb.services, s)
    ensures RightProbe(Stripped(p, s, true), pcb.(services := Removed(pcb.services, s)), exact')
  {
    RightQuestionGoes(pcb.services, s);
    StrippedKinds(p.questions, pcb.services, s);
    RemovedMembers(pcb.services, s);
    assert HostsOf(Removed(pcb.services, s)) <= HostsOf(pcb.services);
  }

  /** A question of the kind goes, whichever it is. */
  lemma StrippedKinds(qs: seq<Service>, ss: seq<Service>, s: Service)
    requires Kinds(qs) == Kinds(ss) && NoRepeats(ss) && s in ss
    ensures Kinds(Unasked(qs, s.kind)) == Kinds(Removed(ss, s))
    ensures Unasked(qs, s.kind) == [] <==> Removed(ss, s) == []
  {
    KindOfMember(ss, s);
    UnaskedKinds(qs, s.kind);
    RemovedKinds(ss, s);
    assert |Unasked(qs, s.kind)| == |Kinds(Unasked(qs, s.kind))|;
  }

  lemma LoneProbeDropped(n: Net, m: Net, port: Port, pcb: Pcb)
    requires port in m.pcbs && port in m.rounds
             && m.pcbs[port] == pcb.(services := [], running := false, state := RUNNING) && !pcb.ip
    requires Of(m.queue, port) == []
    ensures port in Fine(m)
  {
  }

  /** The port is probing something else. */
  lemma StripOtherProbe(n: Net, e: Entry, port: Port, pcb: Pcb, s: Service, p: Port) returns (m: Net)
    requires ListOk(n) && e in n.queue && port == PortOf(e) && port in n.pcbs && n.pcbs[port] == pcb
    requires Asking(pcb.state) && ProbingOk(n, port) && Of(n.queue, port) == [e] && s !in pcb.services
    ensures m == StripPacket(n, e, s) && m == n
  {
    RemovedMembers(pcb.services, s);
    m := StripPacket(n, e, s);
    assert m.payloads == n.payloads && m.pcbs == n.pcbs;
  }

  /** The last service is taken out of the probe, and the probe off the list. */
  lemma StripLastProbe(n: Net, e: Entry, port: Port, pcb: Pcb, s: Service, p: Port) returns (m: Net)
    requires ListOk(n) && e in n.queue && port == PortOf(e) && port in n.pcbs && n.pcbs[port] == pcb
    requires Asking(pcb.state) && ProbingOk(n, port) && Of(n.queue, port) == [e] && s in pcb.services
    requires Removed(pcb.services, s) == [] && !pcb.ip
    ensures m == StripPacket(n, e, s) && ListOk(m) && m.pcbs.Keys == n.pcbs.Keys && port in Fine(m)
    ensures p in Fine(n) && p != port ==> p in Fine(m)
  {
    StrippedKinds(n.payloads[e.id].questions, pcb.services, s);
    var n1 := RewrittenOk(n, e, port, Stripped(n.payloads[e.id], s, true), CheckProbing(pcb, s, false),
                          !Leads(pcb.services, s), p);
    m := DetachedOk(n1, e, port, p);
    assert Without([e], e.id) == [] by { FilterMember([e], (x: Entry) => x.id != e.id, e); }
    LoneProbeDropped(n, m, port, pcb);
  }

  /** A service is taken out of the probe, and something stays. */
  lemma StripFromProbe(n: Net, e: Entry, port: Port, pcb: Pcb, s: Service, p: Port) returns (m: Net)
    requires ListOk(n) && e in n.queue && port == PortOf(e) && port in n.pcbs && n.pcbs[port] == pcb
    requires Asking(pcb.state) && ProbingOk(n, port) && Of(n.queue, port) == [e] && s in pcb.services
    requires Removed(pcb.services, s) != [] || pcb.ip
    ensures m == StripPacket(n, e, s) && ListOk(m) && m.pcbs.Keys == n.pcbs.Keys && port in Fine(m)
    ensures p in Fine(n) && p != port ==> p in Fine(m)
  {
    m := RewrittenOk(n, e, port, Stripped(n.payloads[e.id], s, true), CheckProbing(pcb, s, false),
                          !Leads(pcb.services, s), p);
    LoneProbeStripped(n, m, e, port, pcb, s);
  }

  /** The port is probing: its one packet is the probe. */
  lemma StripProbeOk(n: Net, e: Entry, port: Port, pcb: Pcb, s: Service, p: Port) returns (m: Net)
    requires ListOk(n) && e in n.queue && port == PortOf(e) && port in n.pcbs && n.pcbs[port] == pcb
    requires Asking(pcb.state) && ProbingOk(n, port) && Of(n.queue, port) == [e] && port in Fine(n)
    ensures m == StripPacket(n, e, s) && ListOk(m) && m.pcbs.Keys == n.pcbs.Keys && port in Fine(m)
    ensures p in Fine(n) && p != port ==> p in Fine(m)
  {
    if s !in pcb.services {
      m := StripOtherProbe(n, e, port, pcb, s, p);
    } else if Removed(pcb.services, s) == [] && !pcb.ip {
      m := StripLastProbe(n, e, port, pcb, s, p);
    } else {
      m := StripFromProbe(n, e, port, pcb, s, p);
    }
  }

  lemma QuietStripped(n: Net, m: Net, e: Entry, port: Port, pcb: Pcb, after: Payload)
    requires port in n.pcbs && port in n.rounds && n.pcbs[port] == pcb && !Asking(pcb.state) && QuietOk(n, port)
             && port in n.ready
    requires e in Of(n.queue, port) && after.Answers? && m.payloads == n.payloads[e.id := after] && m.ready == n.ready
    requires port in m.pcbs && port in m.rounds && (m.pcbs[port] == pcb || m.pcbs[port] == pcb.(state := RUNNING))
    requires forall x <- Of(m.queue, port) :: x in Of(n.queue, port)
    ensures port in Fine(m)
  {
  }

  lemma StripAnswersOk(n: Net, e: Entry, port: Port, pcb: Pcb, s: Service, p: Port) returns (m: Net)
    requires ListOk(n) && e in n.queue && port == PortOf(e) && port in n.pcbs && n.pcbs[port] == pcb && port in n.ready
    requires !Asking(pcb.state) && QuietOk(n, port) && e in Of(n.queue, port)
    ensures m == StripPacket(n, e, s) && ListOk(m) && m.pcbs.Keys == n.pcbs.Keys && port in Fine(m)
    ensures p in Fine(n) && p != port ==> p in Fine(m)
  {
    var before := n.payloads[e.id];
    var after := Stripped(before, s, false);
    var n1 := RewrittenOk(n, e, port, after, CheckProbing(pcb, s, HasAnswers(before) && !HasAnswers(after)), false, p);
    m := n1;
    if Blank(after) {
      m := DetachedOk(n1, e, port, p);
    }
    QuietStripped(n, m, e, port, pcb, after);
  }

  /** Only a ready port has packets, and a probing one has one. */
  lemma PortsPackets(n: Net, port: Port, e: Entry)
    requires port in Fine(n) && e in Of(n.queue, port)
    ensures port in n.ready && (Asking(n.pcbs[port].state) ==> Of(n.queue, port) == [e])
  {
    assert PortOk(n, port);
  }

  lemma ListedOk(n: Net, e: Entry) returns (port: Port)
    requires Ok(n) && e in n.queue
    ensures port == PortOf(e) && port in Fine(n) && port in n.ready && e in Of(n.queue, port)
    ensures Asking(n.pcbs[port].state) ==> Of(n.queue, port) == [e]
  {
    port := PortOf(e);
    PortListed(n.queue, port, e);
    PortsPackets(n, port, e);
  }

  lemma PortListed(q: seq<Entry>, port: Port, e: Entry)
    requires e in q && PortOf(e) == port
    ensures e in Of(q, port)
  {
    var i :| 0 <= i < |q| && q[i] == e;
    OfMember(q, port, i);
  }

  lemma StripPacketOk(n: Net, e: Entry, s: Service, p: Port) returns (m: Net)
    requires Ok(n) && e in n.queue
    ensures m == StripPacket(n, e, s) && ListOk(m) && m.pcbs.Keys == n.pcbs.Keys
    ensures p in n.pcbs ==> p in Fine(m)
  {
    var port := ListedOk(n, e);
    if Asking(n.pcbs[port].state) {
      m := StripProbeOk(n, e, port, n.pcbs[port], s, p);
    } else {
      m := StripAnswersOk(n, e, port, n.pcbs[port], s, p);
    }
  }

  /** `mdns_priv_remove_scheduled_service_packets`: every packet has its turn. */
  function StripAll(n: Net, todo: seq<Entry>, s: Service): Net
    decreases |todo|
  {
    if todo == [] || todo[0].id !in n.payloads || PortOf(todo[0]) !in n.pcbs then n
    else StripAll(StripPacket(n, todo[0], s), todo[1..], s)
  }

  /** Packets that are not waiting for their turn do not mention the service. */
  ghost predicate SilentBut(n: Net, todo: seq<Entry>, s: Service) {
    forall e <- n.queue :: e.id in n.payloads && (e in todo || !Mentions(n.payloads[e.id], s))
  }

  lemma StripPacketList(n: Net, e: Entry, s: Service, m: Net)
    requires e.id in n.payloads && PortOf(e) in n.pcbs && m == StripPacket(n, e, s)
    ensures forall x <- m.queue :: x in n.queue
    ensures forall x <- n.queue :: x.id != e.id ==> x in m.queue
    ensures m.payloads.Keys == n.payloads.Keys + {e.id} && !Mentions(m.payloads[e.id], s)
    ensures forall id <- n.payloads :: id != e.id ==> m.payloads[id] == n.payloads[id]
  {
    StrippedIsSilent(n.payloads[e.id], s, true);
    StrippedIsSilent(n.payloads[e.id], s, false);
    forall x
      ensures x in m.queue ==> x in n.queue
      ensures x in n.queue && x.id != e.id ==> x in m.queue
    {
      FilterMember(n.queue, (x: Entry) => x.id != e.id, x);
    }
  }

  lemma StripPacketSilences(n: Net, todo: seq<Entry>, s: Service, m: Net)
    requires ListOk(n) && todo != [] && (forall e <- todo :: e in n.queue) && SilentBut(n, todo, s)
             && m == StripPacket(n, todo[0], s)
    ensures SilentBut(m, todo[1..], s)
    ensures forall e <- n.queue :: e.id != todo[0].id ==> e in m.queue
  {
    var e := todo[0];
    StripPacketList(n, e, s, m);
    forall x | x in m.queue
      ensures x in todo[1..] || !Mentions(m.payloads[x.id], s)
    {
      assert x == e || x.id != e.id;
      assert todo == [e] + todo[1..];
    }
  }

  lemma StripPacketKeeps(n: Net, e: Entry, s: Service)
    requires Ok(n) && e in n.queue
    ensures Ok(StripPacket(n, e, s))
  {
    forall p | p in n.pcbs
      ensures p in Fine(StripPacket(n, e, s))
    {
      var m := StripPacketOk(n, e, s, p);
    }
    var m := StripPacketOk(n, e, s, PortOf(e));
  }

  /** The records of a removed service disappear from every scheduled packet, and the probing of the others goes on. */
  lemma {:induction false} ServiceForgotten(n: Net, todo: seq<Entry>, s: Service)
    requires Ok(n) && InOrder(todo) && (forall e <- todo :: e in n.queue) && SilentBut(n, todo, s)
    ensures Ok(StripAll(n, todo, s)) && SilentBut(StripAll(n, todo, s), [], s)
    ensures StripAll(n, todo, s).pcbs.Keys == n.pcbs.Keys && StripAll(n, todo, s).now == n.now
    decreases |todo|
  {
    if todo != [] {
      var m := StripPacket(n, todo[0], s);
      StripPacketKeeps(n, todo[0], s);
      StripPacketSilences(n, todo, s, m);
      ServiceForgotten(m, todo[1..], s);
    }
  }

  // ---------------------------------------------------------------- whole-interface operations

  /** `mdns_priv_probe_all_pcbs` on ports in the order it visits them, each with its random delay. */
  datatype Job = Job(port: Port, jitter: nat)

  function Forgotten(n: Net, port: Port): Net
    requires port in n.pcbs
  {
    Became(n, port, n.pcbs[port].(services := [], running := false))
  }

  function ProbeEach(n: Net, jobs: seq<Job>, services: seq<Service>, ip: bool, clear: bool): Net
    decreases |jobs|
  {
    if jobs == [] then n
    else
      var port := jobs[0].port;
      var n1 := if port in n.pcbs && port in n.ready
                then StartProbe(if clear then Forgotten(n, port) else n, port, services, ip, jobs[0].jitter) else n;
      ProbeEach(n1, jobs[1..], services, ip, clear)
  }

  /** `mdns_priv_pcb_enable`; a missing socket is opened, or not. */
  function Enable(n: Net, port: Port, opens: bool, services: seq<Service>, jitter: nat): Net
    requires port in n.pcbs
  {
    if port !in n.ready && !opens then Became(n, port, n.pcbs[port].(failed := 0))
    else StartProbe(n.(ready := n.ready + {port}), port, services, true, jitter)
  }

  /** `mdns_priv_pcb_disable`; `other` is the same protocol on the interface next to this one. */
  function Disable(n: Net, port: Port, other: Option<Port>, opens: bool, services: seq<Service>, jitter: nat): Net
    requires port in n.pcbs && (other.Some? ==> other.value in n.pcbs && other.value != port)
  {
    if port !in n.ready then Became(n, port, n.pcbs[port].(state := OFF))
    else
      var n1 := Deinit(n, port);
      if other.Some? && n1.pcbs[other.value].state.DUP?
      then Enable(Became(n1, other.value, n1.pcbs[other.value].(state := OFF)), other.value, opens, services, jitter)
      else n1
  }

  /** `mdns_priv_pcb_set_duplicate` for one protocol. */
  function SetDuplicate(n: Net, port: Port, other: Port, jitter: nat): Net
    requires port in n.pcbs && other in n.pcbs && port != other
  {
    if other !in n.ready then n
    else
      var n1 := if port in n.ready then Deinit(n, port) else n;
      Announce(Became(n1, port, n1.pcbs[port].(state := DUP)), other, [], true, jitter)
  }

  // ---------------------------------------------------------------- every run

  datatype Op =
    | ProbeOn(port: Port, services: seq<Service>, ip: bool, jitter: nat)
    | ProbeAll(jobs: seq<Job>, services: seq<Service>, ip: bool, clear: bool)
    | RestartAll(jobs: seq<Job>, services: seq<Service>)
    | EnablePort(port: Port, opens: bool, services: seq<Service>, jitter: nat)
    | DisablePort(port: Port, neighbour: Option<Port>, opens: bool, services: seq<Service>, jitter: nat)
    | Duplicate(port: Port, other: Port, jitter: nat)
    | AnnounceOn(port: Port, services: seq<Service>, ip: bool, jitter: nat)
    | Respond(port: Port, said: Payload, ms: nat)
    | RemoveService(service: Service)
    | ProbeFailed(port: Port)
    | Send
    | Wait(ms: nat)

  ghost predicate Covers(jobs: seq<Job>, ports: set<Port>) {
    forall port <- ports :: Visits(jobs, port)
  }

  ghost predicate Visits(jobs: seq<Job>, port: Port) {
    exists i :: 0 <= i < |jobs| && jobs[i].port == port
  }

  lemma VisitedLater(jobs: seq<Job>, port: Port)
    requires jobs != []
    ensures Visits(jobs, port) ==> jobs[0].port == port || Visits(jobs[1..], port)
  {
    if i :| 0 < i < |jobs| && jobs[i].port == port {
      assert jobs[1..][i - 1].port == port;
    }
  }

  /** What the callers give: distinct services, something to probe for, ready ports, due packets. */
  ghost predicate OpOk(n: Net, op: Op) {
    match op
    case ProbeOn(port, services, ip, _) =>
      port in n.pcbs && port in n.ready && NoRepeats(services) && (services != [] || ip)
    case ProbeAll(_, services, ip, _) => NoRepeats(services) && (services != [] || ip)
    case RestartAll(jobs, services) => NoRepeats(services) && Covers(jobs, n.pcbs.Keys)
    case EnablePort(port, _, services, _) => port in n.pcbs && NoRepeats(services)
    case DisablePort(port, other, _, services, _) =>
      port in n.pcbs && NoRepeats(services) && (other.Some? ==> other.value in n.pcbs && other.value != port)
    case Duplicate(port, other, _) => port in n.pcbs && other in n.pcbs && port != other
    case AnnounceOn(port, services, ip, _) => port in n.pcbs && NoRepeats(services) && (services != [] || ip)
    case Respond(port, said, _) =>
      && port in n.pcbs && port in n.ready && said.Answers?
      && (IsAnnouncing(n.pcbs[port].state) || n.pcbs[port].state.RUNNING?)
    case ProbeFailed(port) => port in n.pcbs
    case Send => HeadDue(n)
    case _ => true
  }

  /** Everything is restarted when a host name is given, at first or after a conflict. */
  function Restarted(n: Net): Net {
    n.(queue := [], named := true)
  }

  ghost function Apply(n: Net, op: Op): Net
    requires OpOk(n, op)
  {
    match op
    case ProbeOn(port, services, ip, jitter) => StartProbe(n, port, services, ip, jitter)
    case ProbeAll(jobs, services, ip, clear) => ProbeEach(n, jobs, services, ip, clear)
    case RestartAll(jobs, services) => ProbeEach(Restarted(n), jobs, services, true, true)
    case EnablePort(port, opens, services, jitter) => Enable(n, port, opens, services, jitter)
    case DisablePort(port, other, opens, services, jitter) => Disable(n, port, other, opens, services, jitter)
    case Duplicate(port, other, jitter) => SetDuplicate(n, port, other, jitter)
    case AnnounceOn(port, services, ip, jitter) => Announce(n, port, services, ip, jitter)
    case Respond(port, said, ms) => Scheduled(n, port, said, ms)
    case RemoveService(s) => StripAll(n, n.queue, s)
    case ProbeFailed(port) => Became(n, port, n.pcbs[port].(failed := (n.pcbs[port].failed + 1) % 0x10000))
    case Send => Transmit(n)
    case Wait(ms) => n.(now := n.now + ms)
  }

  lemma ForgottenOk(n: Net, port: Port, p: Port)
    requires ListOk(n) && port in n.pcbs
    ensures ListOk(Forgotten(n, port)) && (p in Fine(n) && p != port ==> p in Fine(Forgotten(n, port)))
  {
    OthersKeep(n, Forgotten(n, port), port, p);
  }

  /** No port probes anything. */
  ghost predicate AllIdle(n: Net) {
    forall port <- n.pcbs :: Idle(n.pcbs[port])
  }

  lemma UnnamedIsIdle(n: Net)
    requires Ok(n)
    ensures n.named || AllIdle(n)
  {
    if !n.named {
      forall port | port in n.pcbs
        ensures Idle(n.pcbs[port])
      {
        assert port in Fine(n);
      }
    }
  }

  /** Probing one port after another: a port once fine stays fine, and every ready port visited becomes so. */
  lemma {:induction false} ProbeEachOk(n: Net, jobs: seq<Job>, services: seq<Service>, ip: bool, clear: bool, p: Port)
    returns (m: Net)
    requires ListOk(n) && NoRepeats(services) && (services != [] || ip) && (clear || Fine(n) == n.pcbs.Keys)
    requires n.named || AllIdle(n)
    ensures m == ProbeEach(n, jobs, services, ip, clear) && ListOk(m) && m.pcbs.Keys == n.pcbs.Keys
    ensures p in Fine(n) ==> p in Fine(m)
    ensures p in n.pcbs && p in n.ready && Visits(jobs, p) ==> p in Fine(m)
    decreases |jobs|
  {
    if jobs == [] {
      m := n;
    } else {
      var port := jobs[0].port;
      var n1 := n;
      if port in n.pcbs && port in n.ready {
        n1 := ProbeOne(n, port, services, ip, clear, jobs[0].jitter, p);
      }
      m := ProbeEachOk(n1, jobs[1..], services, ip, clear, p);
      VisitedLater(jobs, p);
    }
  }

  lemma ProbeOne(n: Net, port: Port, services: seq<Service>, ip: bool, clear: bool, jitter: nat, p: Port)
    returns (m: Net)
    requires ListOk(n) && NoRepeats(services) && (services != [] || ip) && (clear || Fine(n) == n.pcbs.Keys)
    requires n.named || AllIdle(n)
    requires port in n.pcbs && port in n.ready
    ensures m == StartProbe(if clear then Forgotten(n, port) else n, port, services, ip, jitter)
    ensures ListOk(m) && m.pcbs.Keys == n.pcbs.Keys && m.ready == n.ready && port in Fine(m)
    ensures p in Fine(n) ==> p in Fine(m)
    ensures clear || Fine(m) == m.pcbs.Keys
    ensures m.named || AllIdle(m)
  {
    if clear {
      ForgottenOk(n, port, p);
      m := StartProbeOk(Forgotten(n, port), port, services, ip, jitter, p);
    } else {
      m := ProbeAlso(n, port, services, ip, jitter);
    }
  }

  lemma ProbeAlso(n: Net, port: Port, services: seq<Service>, ip: bool, jitter: nat) returns (m: Net)
    requires Ok(n) && NoRepeats(services) && (services != [] || ip) && port in n.pcbs && port in n.ready
    ensures m == StartProbe(n, port, services, ip, jitter) && Ok(m) && m.pcbs.Keys == n.pcbs.Keys
  {
    FineRecord(n, port);
    m := StartProbeOk(n, port, services, ip, jitter, port);
    forall q | q in n.pcbs
      ensures q in Fine(m)
    {
      var m' := StartProbeOk(n, port, services, ip, jitter, q);
    }
  }

  lemma FineRecord(n: Net, port: Port)
    requires port in Fine(n)
    ensures NoRepeats(n.pcbs[port].services) && (n.named || Idle(n.pcbs[port]))
  {
    assert PortOk(n, port);
  }

  /** A port without a packet that is given its socket, or a state without probing, is still fine. */
  lemma RelabelledOk(n: Net, port: Port, state: State, ready: set<Port>, p: Port) returns (m: Net)
    requires ListOk(n) && port in Fine(n) && Of(n.queue, port) == [] && !Asking(n.pcbs[port].state) && !Asking(state)
    requires ready - {port} == n.ready - {port}
    ensures m == Became(n.(ready := ready), port, n.pcbs[port].(state := state)) && ListOk(m)
            && m.pcbs.Keys == n.pcbs.Keys
    ensures p in Fine(n) ==> p in Fine(m)
  {
    m := Became(n.(ready := ready), port, n.pcbs[port].(state := state));
    OthersKeep(n, m, port, p);
    assert QuietOk(m, port);
  }

  lemma EnableKeeps(n: Net, port: Port, opens: bool, services: seq<Service>, jitter: nat, p: Port) returns (m: Net)
    requires ListOk(n) && port in Fine(n) && NoRepeats(services)
    ensures m == Enable(n, port, opens, services, jitter) && ListOk(m) && m.pcbs.Keys == n.pcbs.Keys && port in Fine(m)
    ensures p in Fine(n) ==> p in Fine(m)
  {
    if port !in n.ready && !opens {
      m := FailureKeeps(n, port, 0, p);
      return;
    }
    var n1 := n.(ready := n.ready + {port});
    if port in n.ready {
      assert n1 == n;
    } else {
      n1 := RelabelledOk(n, port, n.pcbs[port].state, n.ready + {port}, p);
      assert n1.pcbs == n.pcbs;
    }
    m := StartProbeOk(n1, port, services, true, jitter, p);
  }

  lemma DisableKeeps(n: Net, port: Port, other: Option<Port>, opens: bool, services: seq<Service>, jitter: nat, p: Port)
    returns (m: Net)
    requires Ok(n) && port in n.pcbs && NoRepeats(services)
             && (other.Some? ==> other.value in n.pcbs && other.value != port)
    ensures m == Disable(n, port, other, opens, services, jitter) && ListOk(m) && m.pcbs.Keys == n.pcbs.Keys
    ensures p in n.pcbs ==> p in Fine(m)
  {
    assert port in Fine(n);
    if port !in n.ready {
      m := RelabelledOk(n, port, OFF, n.ready, p);
    } else {
      m := DeinitOk(n, port, p);
      if other.Some? && m.pcbs[other.value].state.DUP? {
        assert other.value in Fine(n);
        var n1 := DeinitOk(n, port, other.value);
        m := WakeDuplicate(n1, other.value, opens, services, jitter, p);
      }
    }
  }

  lemma WakeDuplicate(n: Net, port: Port, opens: bool, services: seq<Service>, jitter: nat, p: Port) returns (m: Net)
    requires ListOk(n) && port in Fine(n) && n.pcbs[port].state.DUP? && NoRepeats(services)
    ensures m == Enable(Became(n, port, n.pcbs[port].(state := OFF)), port, opens, services, jitter)
    ensures ListOk(m) && m.pcbs.Keys == n.pcbs.Keys && (p in Fine(n) ==> p in Fine(m))
  {
    var n1 := RelabelledOk(n, port, OFF, n.ready, p);
    var n2 := RelabelledOk(n, port, OFF, n.ready, port);
    m := EnableKeeps(n1, port, opens, services, jitter, p);
  }

  lemma MarkedDuplicate(n: Net, port: Port, p: Port) returns (m: Net)
    requires Ok(n) && port in n.pcbs
    ensures var n1 := if port in n.ready then Deinit(n, port) else n;
            port in n1.pcbs && m == Became(n1, port, n1.pcbs[port].(state := DUP))
    ensures ListOk(m) && m.pcbs.Keys == n.pcbs.Keys && (p in n.pcbs ==> p in Fine(m))
  {
    assert port in Fine(n);
    var n1 := n;
    if port in n.ready {
      n1 := DeinitOk(n, port, p);
    }
    m := RelabelledOk(n1, port, DUP, n1.ready, p);
  }

  lemma MarkedDuplicateOk(n: Net, port: Port) returns (m: Net)
    requires Ok(n) && port in n.pcbs
    ensures var n1 := if port in n.ready then Deinit(n, port) else n;
            port in n1.pcbs && m == Became(n1, port, n1.pcbs[port].(state := DUP))
    ensures Ok(m) && m.pcbs.Keys == n.pcbs.Keys
  {
    m := MarkedDuplicate(n, port, port);
    forall p | p in n.pcbs
      ensures p in Fine(m)
    {
      var m' := MarkedDuplicate(n, port, p);
    }
  }

  lemma DuplicateKeeps(n: Net, port: Port, other: Port, jitter: nat, p: Port) returns (m: Net)
    requires Ok(n) && port in n.pcbs && other in n.pcbs && port != other
    ensures m == SetDuplicate(n, port, other, jitter) && ListOk(m) && m.pcbs.Keys == n.pcbs.Keys
    ensures p in n.pcbs ==> p in Fine(m)
  {
    m := n;
    if other in n.ready {
      var n1 := MarkedDuplicateOk(n, port);
      m := AnnounceKeeps(n1, other, [], true, jitter, p);
    }
  }

  lemma RestartKeeps(n: Net, jobs: seq<Job>, services: seq<Service>, p: Port) returns (m: Net)
    requires Ok(n) && NoRepeats(services) && Covers(jobs, n.pcbs.Keys)
    ensures m == ProbeEach(Restarted(n), jobs, services, true, true) && ListOk(m) && m.pcbs.Keys == n.pcbs.Keys
    ensures p in n.pcbs ==> p in Fine(m)
  {
    var n1 := Restarted(n);
    if p in n.pcbs && p !in n.ready {
      assert p in Fine(n);
      assert QuietOk(n1, p);
    }
    m := ProbeEachOk(n1, jobs, services, true, true, p);
  }

  lemma FailureKeeps(n: Net, port: Port, failed: nat, p: Port) returns (m: Net)
    requires ListOk(n) && port in Fine(n)
    ensures m == Became(n, port, n.pcbs[port].(failed := failed)) && ListOk(m) && m.pcbs.Keys == n.pcbs.Keys
    ensures port in Fine(m) && (p in Fine(n) ==> p in Fine(m))
  {
    m := Became(n, port, n.pcbs[port].(failed := failed));
    OthersKeep(n, m, port, p);
    assert Asking(m.pcbs[port].state) ==> ProbingOk(m, port);
  }

  lemma RespondKeeps(n: Net, port: Port, said: Payload, ms: nat, p: Port) returns (m: Net)
    requires Ok(n) && port in n.pcbs && port in n.ready && said.Answers?
    requires IsAnnouncing(n.pcbs[port].state) || n.pcbs[port].state.RUNNING?
    ensures m == Scheduled(n, port, said, ms) && ListOk(m) && m.pcbs.Keys == n.pcbs.Keys
    ensures p in n.pcbs ==> p in Fine(m)
  {
    m := RespondOk(n, port, said, ms, n.pcbs[port].state, p);
    assert m.pcbs == n.pcbs;
  }

  lemma WaitKeeps(n: Net, ms: nat, p: Port) returns (m: Net)
    requires Ok(n)
    ensures m == n.(now := n.now + ms) && ListOk(m) && (p in n.pcbs ==> p in Fine(m))
  {
    m := n.(now := n.now + ms);
    if p in Fine(n) {
      PortFrame(n, m, p);
    }
  }

  lemma RemoveKeeps(n: Net, s: Service, p: Port) returns (m: Net)
    requires Ok(n)
    ensures m == StripAll(n, n.queue, s) && ListOk(m) && m.pcbs.Keys == n.pcbs.Keys && (p in n.pcbs ==> p in Fine(m))
    ensures forall e <- m.queue :: e.id in m.payloads && !Mentions(m.payloads[e.id], s)
  {
    m := StripAll(n, n.queue, s);
    ServiceForgotten(n, n.queue, s);
  }

  lemma StepKeeps(n: Net, op: Op, p: Port) returns (m: Net)
    requires Ok(n) && OpOk(n, op)
    ensures m == Apply(n, op) && ListOk(m) && m.pcbs.Keys == n.pcbs.Keys && (p in n.pcbs ==> p in Fine(m))
  {
    match op
    case ProbeOn(port, services, ip, jitter) =>
      assert port in Fine(n);
      m := StartProbeOk(n, port, services, ip, jitter, p);
    case ProbeAll(jobs, services, ip, clear) =>
      UnnamedIsIdle(n);
      m := ProbeEachOk(n, jobs, services, ip, clear, p);
    case RestartAll(jobs, services) => m := RestartKeeps(n, jobs, services, p);
    case EnablePort(port, opens, services, jitter) =>
      assert port in Fine(n);
      m := EnableKeeps(n, port, opens, services, jitter, p);
    case DisablePort(port, other, opens, services, jitter) =>
      m := DisableKeeps(n, port, other, opens, services, jitter, p);
    case Duplicate(port, other, jitter) => m := DuplicateKeeps(n, port, other, jitter, p);
    case AnnounceOn(port, services, ip, jitter) => m := AnnounceKeeps(n, port, services, ip, jitter, p);
    case Respond(port, said, ms) => m := RespondKeeps(n, port, said, ms, p);
    case RemoveService(s) => m := RemoveKeeps(n, s, p);
    case ProbeFailed(port) =>
      assert port in Fine(n);
      m := FailureKeeps(n, port, (n.pcbs[port].failed + 1) % 0x10000, p);
    case Send => m := TransmitKeeps(n, p);
    case Wait(ms) => m := WaitKeeps(n, ms, p);
  }

  lemma StepOk(n: Net, op: Op)
    requires Ok(n) && OpOk(n, op)
    ensures Ok(Apply(n, op))
  {
    var m := StepKeeps(n, op, Port(0, 0));
    forall p | p in n.pcbs
      ensures p in Fine(m)
    {
      var m' := StepKeeps(n, op, p);
    }
  }

  ghost predicate Runs(n: Net, ops: seq<Op>, m: Net)
    decreases |ops|
  {
    if ops == [] then m == n
    else OpOk(n, ops[0]) && Runs(Apply(n, ops[0]), ops[1..], m)
  }

  /** The responder as it is set up: every port off and without a socket, nothing scheduled. */
  ghost predicate SwitchedOff(n: Net) {
    && n.queue == [] && n.ready == {} && n.slipped == {} && n.rounds.Keys == n.pcbs.Keys
    && forall port <- n.pcbs :: n.pcbs[port] == Pcb(OFF, [], false, false, 0)
  }

  lemma SwitchedOffIsOk(n: Net)
    requires SwitchedOff(n)
    ensures Ok(n)
  {
    forall port | port in n.pcbs
      ensures port in Fine(n)
    {
      assert QuietOk(n, port);
    }
  }

  /** The discipline holds in every state any run can reach. */
  lemma {:induction false} ProbingSafe(n: Net, ops: seq<Op>, m: Net)
    requires Ok(n) && Runs(n, ops, m)
    ensures Ok(m)
    decreases |ops|
  {
    if ops != [] {
      StepOk(n, ops[0]);
      ProbingSafe(Apply(n, ops[0]), ops[1..], m);
    }
  }

  lemma {:induction false} StripAllStates(n: Net, todo: seq<Entry>, s: Service, port: Port)
    requires port in n.pcbs
    ensures var m := StripAll(n, todo, s);
            port in m.pcbs && (m.pcbs[port].state == n.pcbs[port].state || m.pcbs[port].state.RUNNING?)
    decreases |todo|
  {
    if !(todo == [] || todo[0].id !in n.payloads || PortOf(todo[0]) !in n.pcbs) {
      StripAllStates(StripPacket(n, todo[0], s), todo[1..], s, port);
    }
  }

  lemma {:induction false} ProbeEachStates(n: Net, jobs: seq<Job>, services: seq<Service>, ip: bool, clear: bool,
                                           port: Port)
    requires port in n.pcbs
    ensures var m := ProbeEach(n, jobs, services, ip, clear);
            port in m.pcbs && (m.pcbs[port].state in {n.pcbs[port].state, PROBE_1, RUNNING})
    decreases |jobs|
  {
    if jobs != [] {
      var p := jobs[0].port;
      var n1 := if p in n.pcbs && p in n.ready
                then StartProbe(if clear then Forgotten(n, p) else n, p, services, ip, jobs[0].jitter) else n;
      ProbeEachStates(n1, jobs[1..], services, ip, clear, port);
    }
  }

  lemma AnnounceStates(n: Net, p: Port, services: seq<Service>, ip: bool, jitter: nat, port: Port)
    requires p in n.pcbs && port in n.pcbs
    ensures port in Announce(n, p, services, ip, jitter).pcbs
    ensures port != p ==> Announce(n, p, services, ip, jitter).pcbs[port] == n.pcbs[port]
    ensures Asking(n.pcbs[port].state) ==> !IsAnnouncing(Announce(n, p, services, ip, jitter).pcbs[port].state)
  {
  }

  lemma DuplicateStates(n: Net, p: Port, other: Port, jitter: nat, port: Port, m: Net)
    requires p in n.pcbs && other in n.pcbs && p != other && port in n.pcbs && Asking(n.pcbs[port].state)
    requires m == SetDuplicate(n, p, other, jitter)
    ensures port in m.pcbs && !IsAnnouncing(m.pcbs[port].state)
  {
    if other in n.ready {
      var n1 := if p in n.ready then Deinit(n, p) else n;
      AnnounceStates(Became(n1, p, n1.pcbs[p].(state := DUP)), other, [], true, jitter, port);
    }
  }

  lemma EnableStates(n: Net, p: Port, opens: bool, services: seq<Service>, jitter: nat, port: Port, m: Net)
    requires p in n.pcbs && port in n.pcbs && m == Enable(n, p, opens, services, jitter)
    ensures port in m.pcbs
    ensures if port == p then m.pcbs[port].state in {n.pcbs[port].state, PROBE_1, RUNNING}
            else m.pcbs[port] == n.pcbs[port]
  {
  }

  lemma DisableStates(n: Net, p: Port, other: Option<Port>, opens: bool, services: seq<Service>, jitter: nat,
                      port: Port, m: Net)
    requires p in n.pcbs && (other.Some? ==> other.value in n.pcbs && other.value != p)
    requires port in n.pcbs && Asking(n.pcbs[port].state)
    requires m == Disable(n, p, other, opens, services, jitter)
    ensures port in m.pcbs && !IsAnnouncing(m.pcbs[port].state)
  {
    var n1 := Deinit(n, p);
    if p in n.ready && other.Some? && n1.pcbs[other.value].state.DUP? {
      EnableStates(Became(n1, other.value, n1.pcbs[other.value].(state := OFF)), other.value, opens, services, jitter,
          port, m);
    }
  }

  lemma SendStates(n: Net, port: Port, m: Net)
    requires HeadDue(n) && port in n.pcbs && Asking(n.pcbs[port].state) && m == Transmit(n)
    ensures port in m.pcbs
    ensures IsAnnouncing(m.pcbs[port].state) ==> PortOf(n.queue[0]) == port && n.pcbs[port].state.PROBE_3?
  {
  }

  /** A port that is probing comes to announce in one way only: by sending a packet in its last probe state. */
  lemma OnlySendingAnnounces(n: Net, op: Op, port: Port, m: Net)
    requires OpOk(n, op) && port in n.pcbs && Asking(n.pcbs[port].state)
    requires m == Apply(n, op) && port in m.pcbs && IsAnnouncing(m.pcbs[port].state)
    ensures op.Send? && PortOf(n.queue[0]) == port && n.pcbs[port].state.PROBE_3?
  {
    match op
    case RemoveService(s) => StripAllStates(n, n.queue, s, port);
    case ProbeAll(jobs, services, ip, clear) => ProbeEachStates(n, jobs, services, ip, clear, port);
    case RestartAll(jobs, services) => ProbeEachStates(Restarted(n), jobs, services, true, true, port);
    case AnnounceOn(p, services, ip, jitter) => AnnounceStates(n, p, services, ip, jitter, port);
    case Duplicate(p, other, jitter) => DuplicateStates(n, p, other, jitter, port, m);
    case EnablePort(p, opens, services, jitter) => EnableStates(n, p, opens, services, jitter, port, m);
    case DisablePort(p, other, opens, services, jitter) => DisableStates(n, p, other, opens, services, jitter, port, m);
    case Send => SendStates(n, port, m);
    case _ =>
  }

  /** `n` is where some run from start-up leads. */
  ghost predicate Reachable(n: Net) {
    exists start: Net, ops: seq<Op> :: SwitchedOff(start) && Runs(start, ops, n)
  }

  /** The operation takes a probing port to an announcing state. */
  ghost predicate ComesToAnnounce(n: Net, op: Op, m: Net, port: Port) {
    && OpOk(n, op) && m == Apply(n, op) && port in n.pcbs && port in m.pcbs
    && Asking(n.pcbs[port].state) && IsAnnouncing(m.pcbs[port].state)
  }

  /**
   * Whatever happened since the responder was set up, a port that turns from probing to announcing has just
   * sent exactly three probes since it last began to probe, each more than 250 ms after the one before. All
   * three offered the records of every service that the announcement, the only packet scheduled, now
   * claims, and asked for each unless a removal in between confused a question. The announcement also has the
   * addresses of the services' hosts: each of these was asked for by all three if the round was about hosts, and
   * by none otherwise.
   */
  lemma AnnouncedAfterThreeProbes(n: Net, op: Op, m: Net, port: Port) returns (hosts: set<nat>)
    requires Reachable(n) && ComesToAnnounce(n, op, m, port)
    ensures port in m.rounds && ProbedFor(m.rounds[port], 3, n.pcbs[port].services, hosts, port !in n.slipped)
    ensures |Of(m.queue, port)| == 1 && Of(m.queue, port)[0].id in m.payloads
    ensures Announces(m.payloads[Of(m.queue, port)[0].id], n.pcbs[port], hosts)
  {
    var start, ops :| SwitchedOff(start) && Runs(start, ops, n);
    SwitchedOffIsOk(start);
    ProbingSafe(start, ops, n);
    OnlySendingAnnounces(n, op, port, m);
    var e, p := HeadOk(n);
    var m';
    m', hosts := ThirdProbe(n, e, port, n.pcbs[port], n.payloads[e.id], NewEntry(n, port, PROBE_GAP));
    assert m == m';
  }
}
