/**
 * A run after which a port announces a host it never asked for: a service is added for another host once the
 * port is running, and is probed for without its host.
 */
module HostRun {
  import opened ServiceLists
  import opened TxProtocol
  import opened Probing
  import opened HostProbing
  import opened SoloPort

  ghost predicate LeadTo(h: Heard, h': Heard) {
    exists ops: seq<Probing.Op> :: HeardRuns(h, ops, h')
  }

  /** Where some run leads. */
  ghost function From(h: Heard): iset<Heard> {
    iset h': Heard | LeadTo(h, h')
  }

  ghost predicate IsStep(h: Heard, op: Probing.Op, h': Heard) {
    Probing.OpOk(h.net, op) && h' == Step(h, op)
  }

  /** Where the operation leads. */
  ghost function Next(h: Heard, op: Probing.Op): iset<Heard> {
    iset h': Heard | IsStep(h, op, h')
  }

  lemma LeadsOn(h: Heard, op: Probing.Op, h1: Heard, h': Heard)
    requires h1 in Next(h, op) && h' in From(h1)
    ensures h' in From(h)
  {
    var ops :| HeardRuns(h1, ops, h');
    assert ([op] + ops)[1..] == ops;
    assert HeardRuns(h, [op] + ops, h');
  }

  lemma LeadsHere(h: Heard)
    ensures h in From(h)
  {
    assert HeardRuns(h, [], h);
  }

  function Only(port: Port, n: Net, sent: seq<Sent>): Heard {
    Heard(n, map[port := sent])
  }

  lemma WaitStep(port: Port, n: Net, sent: seq<Sent>, ms: nat)
    requires n.ready == {port}
    ensures Only(port, n.(now := n.now + ms), sent) in Next(Only(port, n, sent), Probing.Wait(ms))
  {
    assert Step(Only(port, n, sent), Probing.Wait(ms)).sent == map[port := sent];
  }

  lemma SendStep(port: Port, n: Net, e: Entry, sent: seq<Sent>, m: Net, x: Sent)
    requires HeadDue(n) && n.queue == [e] && PortOf(e) == port && m == Transmit(n) && x == Sent(n.now, n.payloads[e.id])
    requires n.ready == {port} && m.ready == {port}
    ensures Only(port, m, sent + [x]) in Next(Only(port, n, sent), Send)
  {
    assert Step(Only(port, n, sent), Send).sent == map[port := sent + [x]];
  }

  /** A port waits until its packet is due and sends it. */
  lemma WaitsAndSends(port: Port, n: Net, e: Entry, sent: seq<Sent>, n1: Net, m: Net, x: Sent, h': Heard)
    requires n.ready == {port} && n.now <= e.sendAt && n1 == n.(now := e.sendAt + 1)
    requires HeadDue(n1) && n1.queue == [e] && PortOf(e) == port && m == Transmit(n1) && m.ready == {port}
    requires x == Sent(n1.now, n1.payloads[e.id]) && h' in From(Only(port, m, sent + [x]))
    ensures h' in From(Only(port, n, sent))
  {
    SendsOn(port, n1, e, sent, m, x, h');
    WaitStep(port, n, sent, e.sendAt + 1 - n.now);
    LeadsOn(Only(port, n, sent), Probing.Wait(e.sendAt + 1 - n.now), Only(port, n1, sent), h');
  }

  lemma SendsOn(port: Port, n: Net, e: Entry, sent: seq<Sent>, m: Net, x: Sent, h': Heard)
    requires HeadDue(n) && n.queue == [e] && PortOf(e) == port && m == Transmit(n) && x == Sent(n.now, n.payloads[e.id])
    requires n.ready == {port} && m.ready == {port} && h' in From(Only(port, m, sent + [x]))
    ensures h' in From(Only(port, n, sent))
  {
    SendStep(port, n, e, sent, m, x);
    LeadsOn(Only(port, n, sent), Send, Only(port, m, sent + [x]), h');
  }

  // ---------------------------------------------------------------- the first round, for the device's own name

  /** What the port says about the device itself. */
  function OwnWords(): map<Id, Payload> {
    map[0 := ProbeFor([], true), 1 := Announcement(ProbeFor([], true))]
  }

  /** Three probes for this device. */
  function Asking3(): seq<Sent> {
    var p := ProbeFor([], true);
    [] + [Sent(121, p)] + [Sent(372, p)] + [Sent(623, p)]
  }

  /** All that is sent until the port is running: these and three announcements of the device. */
  function Introduced(): seq<Sent> {
    var a := Announcement(ProbeFor([], true));
    Asking3() + [Sent(874, a)] + [Sent(1875, a)] + [Sent(2876, a)]
  }

  /** The port is running and has introduced the device. */
  function Running(port: Port): Net {
    Alone(port, Pcb(RUNNING, [], false, false, 0), [], OwnWords(), 2, 2876, Introduced(), {})
  }

  /** It is about to announce the device. */
  function Asked3(port: Port): Net {
    Alone(port, Pcb(ANNOUNCE_1, [], false, false, 0), [Packet(port, 1, 873)], OwnWords(), 2, 623, Asking3(), {})
  }

  /** Its third announcement is due. */
  function Announced2(port: Port): Net {
    var a := Announcement(ProbeFor([], true));
    Alone(port, Pcb(ANNOUNCE_3, [], false, false, 0), [Packet(port, 1, 2875)], OwnWords(), 2, 1875,
          Asking3() + [Sent(874, a)] + [Sent(1875, a)], {})
  }

  lemma AnnouncesLast(port: Port, r: seq<Sent>, h': Heard)
    requires h' == Only(port, Running(port), Introduced()) && r == Announced2(port).rounds[port]
    ensures h' in From(Only(port, Announced2(port), r))
  {
    var a, e, n := Announcement(ProbeFor([], true)), Packet(port, 1, 2875), Announced2(port);
    LeadsHere(h');
    SendsLast(port, Pcb(ANNOUNCE_3, [], false, false, 0), e, OwnWords(), 2, 2876, r, {});
    WaitsAndSends(port, n, e, r, n.(now := 2876), h'.net, Sent(2876, a), h');
  }

  /** Its second announcement is due. */
  function Announced1(port: Port): Net {
    Alone(port, Pcb(ANNOUNCE_2, [], false, false, 0), [Packet(port, 1, 1874)], OwnWords(), 2, 874,
          Asking3() + [Sent(874, Announcement(ProbeFor([], true)))], {})
  }

  lemma AnnouncesSecond(port: Port, r: seq<Sent>, h': Heard)
    requires h' == Only(port, Running(port), Introduced()) && r == Announced1(port).rounds[port]
    ensures h' in From(Only(port, Announced1(port), r))
  {
    var a, e, n, m := Announcement(ProbeFor([], true)), Packet(port, 1, 1874), Announced1(port), Announced2(port);
    AnnouncesLast(port, m.rounds[port], h');
    SendsAgain(port, Pcb(ANNOUNCE_2, [], false, false, 0), e, OwnWords(), 2, 1875, r, 1000, {});
    WaitsAndSends(port, n, e, r, n.(now := 1875), m, Sent(1875, a), h');
  }

  lemma Announcing(port: Port, h': Heard)
    requires h' == Only(port, Running(port), Introduced())
    ensures h' in From(Only(port, Asked3(port), Asking3()))
  {
    var a, c1, e1 := Announcement(ProbeFor([], true)), Pcb(ANNOUNCE_1, [], false, false, 0), Packet(port, 1, 873);
    var r0 := Asking3();
    var r1 := r0 + [Sent(874, a)];
    AnnouncesSecond(port, r1, h');
    SendsAgain(port, c1, e1, OwnWords(), 2, 874, r0, 1000, {});
    WaitsAndSends(port, Asked3(port), e1, r0, Asked3(port).(now := 874), Announced1(port), Sent(874, a), h');
  }

  /** The port is enabled on a device without services: the first probe is scheduled. */
  function Enabled(port: Port): Net {
    Alone(port, Pcb(PROBE_1, [], true, true, 0), [Packet(port, 0, 120)], map[0 := ProbeFor([], true)], 1, 0, [], {})
  }

  lemma AsksForItself(port: Port, h': Heard)
    requires h' in From(Only(port, Asked3(port), Asking3()))
    ensures h' in From(Only(port, Enabled(port), []))
  {
    var p, said := ProbeFor([], true), map[0 := ProbeFor([], true)];
    var c1, c2, c3 := Pcb(PROBE_1, [], true, true, 0), Pcb(PROBE_2, [], true, true, 0), Pcb(PROBE_3, [], true, true, 0);
    var e1, e2, e3 := Packet(port, 0, 120), Packet(port, 0, 371), Packet(port, 0, 622);
    var r1 := [] + [Sent(121, p)];
    var r2 := r1 + [Sent(372, p)];
    var n2, n3 := Alone(port, c2, [e2], said, 1, 121, r1, {}), Alone(port, c3, [e3], said, 1, 372, r2, {});
    assert said[1 := Announcement(p)] == OwnWords();
    SendsNew(port, c3, e3, said, 1, 623, r2, PROBE_GAP, {});
    WaitsAndSends(port, n3, e3, r2, n3.(now := 623), Asked3(port), Sent(623, p), h');
    SendsAgain(port, c2, e2, said, 1, 372, r1, PROBE_GAP, {});
    WaitsAndSends(port, n2, e2, r1, n2.(now := 372), n3, Sent(372, p), h');
    SendsAgain(port, c1, e1, said, 1, 121, [], PROBE_GAP, {});
    WaitsAndSends(port, Enabled(port), e1, [], Enabled(port).(now := 121), n2, Sent(121, p), h');
  }

  function Off(port: Port): Net {
    Net(map[port := Pcb(OFF, [], false, false, 0)], {}, [], map[], 0, 0, true, map[port := []], {})
  }

  lemma NetEnabled(port: Port)
    ensures Enable(Off(port), port, true, [], 0) == Enabled(port)
  {
    AloneOnList(Packet(port, 0, 120));
  }

  lemma Enables(port: Port)
    ensures Only(port, Enabled(port), []) in Next(Only(port, Off(port), []), EnablePort(port, true, [], 0))
  {
    NetEnabled(port);
    assert Step(Only(port, Off(port), []), EnablePort(port, true, [], 0)).sent == map[port := []];
  }

  lemma OffAtStart(port: Port, h: Heard)
    requires h == Only(port, Off(port), [])
    ensures AtStart(h)
  {
  }

  lemma GetsRunning(port: Port, start: Heard, h1: Heard, h: Heard)
    requires start == Only(port, Off(port), []) && h1 == Only(port, Enabled(port), [])
    requires h == Only(port, Running(port), Introduced())
    ensures h in From(start)
  {
    Announcing(port, h);
    AsksForItself(port, h);
    Enables(port);
    LeadsOn(start, EnablePort(port, true, [], 0), h1, h);
  }

  lemma IsIntroduced(port: Port) returns (start: Heard, h: Heard)
    ensures AtStart(start) && h in From(start) && h == Only(port, Running(port), Introduced())
  {
    start, h := Only(port, Off(port), []), Only(port, Running(port), Introduced());
    OffAtStart(port, start);
    GetsRunning(port, start, Only(port, Enabled(port), []), h);
  }

  // ---------------------------------------------------------------- the second round, for a service alone

  function Said(s: Service): map<Id, Payload> {
    OwnWords()[2 := ProbeFor([s], false)]
  }

  /** The service is added, and the port probes for it. */
  function Added(port: Port, s: Service): Net {
    Alone(port, Pcb(PROBE_1, [s], false, true, 0), [Packet(port, 2, 2996)], Said(s), 3, 2876, [], {})
  }

  lemma NetAdded(port: Port, s: Service)
    ensures ProbeEach(Running(port), [Job(port, 0)], [s], false, false) == Added(port, s)
  {
    AloneOnList(Packet(port, 2, 2996));
    assert StartProbe(Running(port), port, [s], false, 0) == Added(port, s);
    assert [Job(port, 0)][1..] == [];
  }

  lemma AddStep(port: Port, n: Net, jobs: seq<Job>, services: seq<Service>, sent: seq<Sent>, m: Net)
    requires ProbeEach(n, jobs, services, false, false) == m && m.ready == n.ready && NoRepeats(services)
             && services != []
    ensures Only(port, m, sent) in Next(Only(port, n, sent), ProbeAll(jobs, services, false, false))
  {
    var op := ProbeAll(jobs, services, false, false);
    assert Probing.Apply(n, op) == m;
    assert SentSince(Only(port, n, sent), m, op, port) == sent;
    assert Step(Only(port, n, sent), op).sent == map[port := sent];
  }

  lemma Adds(port: Port, s: Service)
    ensures Only(port, Added(port, s), Introduced())
         in Next(Only(port, Running(port), Introduced()), ProbeAll([Job(port, 0)], [s], false, false))
  {
    NetAdded(port, s);
    AddStep(port, Running(port), [Job(port, 0)], [s], Introduced(), Added(port, s));
  }

  /** Two of its probes are sent, and the third is due. */
  function ThirdDue(port: Port, s: Service): Net {
    var p := ProbeFor([s], false);
    Alone(port, Pcb(PROBE_3, [s], false, true, 0), [Packet(port, 2, 3498)], Said(s), 3, 3499,
          [] + [Sent(2997, p)] + [Sent(3248, p)], {})
  }

  function AskedTwice(s: Service): seq<Sent> {
    Introduced() + [Sent(2997, ProbeFor([s], false))] + [Sent(3248, ProbeFor([s], false))]
  }

  lemma AsksForService(port: Port, s: Service)
    ensures Only(port, ThirdDue(port, s), AskedTwice(s)) in From(Only(port, Added(port, s), Introduced()))
  {
    var p, said := ProbeFor([s], false), Said(s);
    var c1, c2 := Pcb(PROBE_1, [s], false, true, 0), Pcb(PROBE_2, [s], false, true, 0);
    var c3 := Pcb(PROBE_3, [s], false, true, 0);
    var e1, e2, e3 := Packet(port, 2, 2996), Packet(port, 2, 3247), Packet(port, 2, 3498);
    var r1 := [] + [Sent(2997, p)];
    var r2 := r1 + [Sent(3248, p)];
    var n2, n3 := Alone(port, c2, [e2], said, 3, 2997, r1, {}), Alone(port, c3, [e3], said, 3, 3248, r2, {});
    var h' := Only(port, ThirdDue(port, s), AskedTwice(s));
    LeadsHere(h');
    WaitStep(port, n3, AskedTwice(s), 251);
    LeadsOn(Only(port, n3, AskedTwice(s)), Probing.Wait(251), h', h');
    SendsAgain(port, c2, e2, said, 3, 3248, r1, PROBE_GAP, {});
    WaitsAndSends(port, n2, e2, Introduced() + [Sent(2997, p)], n2.(now := 3248), n3, Sent(3248, p), h');
    SendsAgain(port, c1, e1, said, 3, 2997, [], PROBE_GAP, {});
    WaitsAndSends(port, Added(port, s), e1, Introduced(), Added(port, s).(now := 2997), n2, Sent(2997, p), h');
  }

  lemma ThirdSent(port: Port, s: Service, x: Sent) returns (m: Net, p: Payload)
    requires x == Sent(3499, ProbeFor([s], false))
    ensures ComesToAnnounce(ThirdDue(port, s), Send, m, port)
    ensures port in m.rounds && |m.rounds[port]| == 3 && forall y <- m.rounds[port] :: y.payload == ProbeFor([s], false)
    ensures |m.queue| == 1 && m.queue[0].id in m.payloads && m.payloads[m.queue[0].id] == p
    ensures p.Answers? && p.services == [s] && p.hosts == {s.host}
    ensures Only(port, m, AskedTwice(s) + [x]) in Next(Only(port, ThirdDue(port, s), AskedTwice(s)), Send)
  {
    var c3, e3, n := Pcb(PROBE_3, [s], false, true, 0), Packet(port, 2, 3498), ThirdDue(port, s);
    SendsNew(port, c3, e3, Said(s), 3, 3499, n.rounds[port], PROBE_GAP, {});
    m := Transmit(n);
    p := Announcement(ProbeFor([s], false));
    SendStep(port, n, e3, AskedTwice(s), m, x);
  }

  /** Of all that is sent only the first three probes ask for a host, this device. */
  lemma OthersNeverAsked(s: Service, host: nat, x: Sent)
    requires host != SELF && x.payload == ProbeFor([s], false)
    ensures forall y <- AskedTwice(s) + [x] :: !AsksForHost(y.payload, host)
  {
    var p := ProbeFor([], true);
    assert HostsOf([]) == {};
    assert !AsksForHost(p, host) && !AsksForHost(Announcement(p), host) && !AsksForHost(x.payload, host);
    forall y | y in AskedTwice(s) + [x]
      ensures y.payload in {p, Announcement(p), x.payload}
    {
    }
  }

  /**
   * A port is enabled and has introduced the device; a service of host `s.host` is added. After three probes that
   * ask for no host at all the port announces that host's addresses; if it is not this device, the port has never
   * asked for it.
   */
  lemma AnnouncedHostUnasked(port: Port, s: Service)
    returns (start: Heard, h1: Heard, h2: Heard, h: Heard, h': Heard, p: Payload)
    ensures AtStart(start) && h1 in From(start) && h1.net.pcbs == map[port := Pcb(RUNNING, [], false, false, 0)]
    ensures h2 in Next(h1, ProbeAll([Job(port, 0)], [s], false, false)) && h in From(h2) && h' in Next(h, Send)
    ensures ComesToAnnounce(h.net, Send, h'.net, port)
    ensures port in h'.net.rounds && |h'.net.rounds[port]| == 3
    ensures forall x <- h'.net.rounds[port] :: x.payload == ProbeFor([s], false)
    ensures |h'.net.queue| == 1 && h'.net.queue[0].id in h'.net.payloads && h'.net.payloads[h'.net.queue[0].id] == p
    ensures p.Answers? && p.services == [s] && p.hosts == {s.host}
    ensures port in h'.sent && (s.host != SELF ==> forall x <- h'.sent[port] :: !AsksForHost(x.payload, s.host))
  {
    start, h1 := IsIntroduced(port);
    h2, h := Only(port, Added(port, s), Introduced()), Only(port, ThirdDue(port, s), AskedTwice(s));
    Adds(port, s);
    AsksForService(port, s);
    var x, m := Sent(3499, ProbeFor([s], false)), h.net;
    m, p := ThirdSent(port, s, x);
    h' := Only(port, m, AskedTwice(s) + [x]);
    if s.host != SELF {
      OthersNeverAsked(s, s.host, x);
    }
  }
}
