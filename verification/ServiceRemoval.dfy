/** What removing a service does to a probe under way, and exactly when all that stays is still asked for. */
module ServiceRemoval {
  import opened ServiceLists
  import opened TxProtocol
  import opened Probing
  import opened SoloPort

  // ---------------------------------------------------------------- one removal

  /** Nothing about the port has changed: it has the one packet `e`, which says the same. */
  ghost predicate Untouched(n: Net, m: Net, port: Port, e: Entry) {
    && port in n.pcbs && port in m.pcbs && m.pcbs[port] == n.pcbs[port]
    && Of(n.queue, port) == [e] && Of(m.queue, port) == [e]
    && e.id in n.payloads && e.id in m.payloads && m.payloads[e.id] == n.payloads[e.id]
  }

  /** The turn of another port's packet. */
  lemma OtherTurn(n: Net, x: Entry, s: Service, port: Port, e: Entry) returns (m: Net)
    requires Ok(n) && x in n.queue && port in n.pcbs && PortOf(x) != port && Of(n.queue, port) == [e]
    ensures m == StripPacket(n, x, s) && Ok(m) && Untouched(n, m, port, e)
    ensures forall y <- n.queue :: y.id != x.id ==> y in m.queue
  {
    StripPacketKeeps(n, x, s);
    m := StripPacket(n, x, s);
    StripPacketList(n, x, s, m);
    OnlyPacket(n.queue, port, e);
    OtherIds(n.queue, x, port);
    OfWithout(n.queue, x.id, port);
    WithoutNone(Of(n.queue, port), x.id);
  }

  lemma {:induction false} OtherTurns(n: Net, todo: seq<Entry>, s: Service, port: Port, e: Entry) returns (m: Net)
    requires Ok(n) && DistinctIds(todo) && port in n.pcbs && Of(n.queue, port) == [e]
    requires forall x <- todo :: x in n.queue && PortOf(x) != port
    ensures m == StripAll(n, todo, s) && Untouched(n, m, port, e)
    decreases |todo|
  {
    if todo == [] {
      m := n;
      OnlyPacket(n.queue, port, e);
    } else {
      var n1 := OtherTurn(n, todo[0], s, port, e);
      m := OtherTurns(n1, todo[1..], s, port, e);
    }
  }

  /** Every other packet belongs to another port. */
  lemma OnlyPacket(q: seq<Entry>, port: Port, e: Entry)
    requires Of(q, port) == [e]
    ensures e in q && PortOf(e) == port && forall x <- q :: x != e ==> PortOf(x) != port
  {
    assert e in Of(q, port);
    OfSource(q, port, e);
    forall x | x in q && PortOf(x) == port
      ensures x == e
    {
      PortListed(q, port, x);
    }
  }

  /** The port probes `ss`, and something besides `s`, and its one packet `e` asks for exactly that. */
  ghost predicate AsksExactly(n: Net, port: Port, e: Entry, ss: seq<Service>, s: Service) {
    && port in n.pcbs && Asking(n.pcbs[port].state) && n.pcbs[port].services == ss && s in ss && NoRepeats(ss)
    && (Removed(ss, s) != [] || n.pcbs[port].ip)
    && Of(n.queue, port) == [e] && e.id in n.payloads && n.payloads[e.id].Probe?
    && n.payloads[e.id].questions == ss && n.payloads[e.id].servers == ss
  }

  /** The port's record and its one packet after the removal. */
  ghost predicate TakenOut(n: Net, m: Net, port: Port, e: Entry, ss: seq<Service>, s: Service)
    requires port in n.pcbs
  {
    && port in m.pcbs && m.pcbs[port] == n.pcbs[port].(services := Removed(ss, s))
    && Of(m.queue, port) == [e] && e.id in m.payloads && m.payloads[e.id].Probe?
    && m.payloads[e.id].questions == Unasked(ss, s.kind) && m.payloads[e.id].servers == Removed(ss, s)
  }

  /** The turn of the port's own packet. */
  lemma OwnTurn(n: Net, s: Service, port: Port, e: Entry, ss: seq<Service>) returns (m: Net)
    requires Ok(n) && AsksExactly(n, port, e, ss, s) && e in n.queue && PortOf(e) == port
    ensures m == StripPacket(n, e, s) && Ok(m) && TakenOut(n, m, port, e, ss, s)
    ensures forall y <- n.queue :: y.id != e.id ==> y in m.queue
  {
    assert port in Fine(n);
    PortsPackets(n, port, e);
    StripPacketKeeps(n, e, s);
    m := StripPacket(n, e, s);
    StripPacketList(n, e, s, m);
  }

  ghost predicate Waiting(n: Net, todo: seq<Entry>) {
    Ok(n) && DistinctIds(todo) && forall x <- todo :: x in n.queue
  }

  lemma OwnFirst(n: Net, todo: seq<Entry>, s: Service, port: Port, e: Entry, ss: seq<Service>) returns (m: Net)
    requires Waiting(n, todo) && todo != [] && todo[0] == e && AsksExactly(n, port, e, ss, s)
    ensures m == StripAll(n, todo, s) && TakenOut(n, m, port, e, ss, s)
  {
    OnlyPacket(n.queue, port, e);
    var n1 := OwnTurn(n, s, port, e, ss);
    RestListed(n.queue, n1.queue, todo, port, e);
    m := OtherTurns(n1, todo[1..], s, port, e);
  }

  /** Once the port's own packet has had its turn, the others are listed still and belong to other ports. */
  lemma RestListed(q: seq<Entry>, q': seq<Entry>, todo: seq<Entry>, port: Port, e: Entry)
    requires DistinctIds(todo) && todo != [] && todo[0] == e && forall x <- todo :: x in q
    requires forall x <- q :: x != e ==> PortOf(x) != port
    requires forall x <- q :: x.id != e.id ==> x in q'
    ensures DistinctIds(todo[1..]) && forall x <- todo[1..] :: x in q' && PortOf(x) != port
  {
    forall x | x in todo[1..]
      ensures x in q' && PortOf(x) != port
    {
      var i :| 0 < i < |todo| && todo[i] == x;
      assert todo[i].id != todo[0].id;
    }
  }

  lemma OtherFirst(n: Net, todo: seq<Entry>, s: Service, port: Port, e: Entry, ss: seq<Service>) returns (m: Net)
    requires Waiting(n, todo) && todo != [] && todo[0] != e && AsksExactly(n, port, e, ss, s)
    ensures m == StripPacket(n, todo[0], s) && Waiting(m, todo[1..]) && AsksExactly(m, port, e, ss, s)
    ensures Untouched(n, m, port, e)
  {
    OnlyPacket(n.queue, port, e);
    m := OtherTurn(n, todo[0], s, port, e);
    StillListed(n.queue, m.queue, todo);
    StillAsks(n, m, port, e, ss, s);
  }

  lemma StillListed(q: seq<Entry>, q': seq<Entry>, todo: seq<Entry>)
    requires DistinctIds(todo) && todo != [] && forall x <- todo :: x in q
    requires forall x <- q :: x.id != todo[0].id ==> x in q'
    ensures DistinctIds(todo[1..]) && forall x <- todo[1..] :: x in q'
  {
    forall x | x in todo[1..]
      ensures x in q'
    {
      var i :| 0 < i < |todo| && todo[i] == x;
      assert todo[i].id != todo[0].id;
    }
  }

  lemma StillAsks(n: Net, m: Net, port: Port, e: Entry, ss: seq<Service>, s: Service)
    requires AsksExactly(n, port, e, ss, s) && Untouched(n, m, port, e)
    ensures AsksExactly(m, port, e, ss, s)
  {
  }

  lemma {:induction false} AllTurns(n: Net, todo: seq<Entry>, s: Service, port: Port, e: Entry, ss: seq<Service>)
    returns (m: Net)
    requires Waiting(n, todo) && e in todo && AsksExactly(n, port, e, ss, s)
    ensures m == StripAll(n, todo, s) && TakenOut(n, m, port, e, ss, s)
    decreases |todo|
  {
    if todo[0] == e {
      m := OwnFirst(n, todo, s, port, e, ss);
    } else {
      var n1 := OtherFirst(n, todo, s, port, e, ss);
      m := AllTurns(n1, todo[1..], s, port, e, ss);
    }
  }

  /**
   * A port is asking for exactly what it probes, a service of it is removed and something stays. Then the
   * scheduled probe still asks for exactly what stays if and only if no service of the same kind stood
   * before the removed one. Otherwise it keeps asking for that one, or no longer asks for another that stays.
   */
  lemma RemovalExact(n: Net, s: Service, port: Port, ss: seq<Service>) returns (m: Net, said: Payload)
    requires Ok(n) && port in n.pcbs && Asking(n.pcbs[port].state) && port !in n.slipped && n.pcbs[port].services == ss
    requires s in ss && (Removed(ss, s) != [] || n.pcbs[port].ip)
    ensures m == StripAll(n, n.queue, s) && port in m.pcbs && m.pcbs[port] == n.pcbs[port].(services := Removed(ss, s))
    ensures |Of(m.queue, port)| == 1 && Of(m.queue, port)[0].id in m.payloads
            && m.payloads[Of(m.queue, port)[0].id] == said
    ensures said.Probe? && said.servers == Removed(ss, s)
    ensures said.questions == Removed(ss, s) <==> Leads(ss, s)
    ensures (s !in said.questions && forall x <- Removed(ss, s) :: x in said.questions) <==> Leads(ss, s)
  {
    var e := OwnPacket(n, s, port, ss);
    m := AllTurns(n, n.queue, s, port, e, ss);
    said := m.payloads[e.id];
    RightQuestionGoes(ss, s);
  }

  lemma OwnPacket(n: Net, s: Service, port: Port, ss: seq<Service>) returns (e: Entry)
    requires Ok(n) && port in n.pcbs && Asking(n.pcbs[port].state) && port !in n.slipped && n.pcbs[port].services == ss
    requires s in ss && (Removed(ss, s) != [] || n.pcbs[port].ip)
    ensures AsksExactly(n, port, e, ss, s) && Waiting(n, n.queue) && e in n.queue && NoRepeats(ss)
  {
    assert port in Fine(n);
    e := ItsProbe(n, port, ss);
    OnlyPacket(n.queue, port, e);
  }

  lemma ItsProbe(n: Net, port: Port, ss: seq<Service>) returns (e: Entry)
    requires port in Fine(n) && Asking(n.pcbs[port].state) && port !in n.slipped && n.pcbs[port].services == ss
    ensures Of(n.queue, port) == [e] && e.id in n.payloads && NoRepeats(ss)
    ensures n.payloads[e.id].Probe? && n.payloads[e.id].questions == ss && n.payloads[e.id].servers == ss
  {
    assert ProbingOk(n, port);
    e := Of(n.queue, port)[0];
  }

  /** After the removal the service's records are gone, and its question too where none was confused. */
  lemma GoneUnlessConfused(n: Net, s: Service, e: Entry)
    requires Ok(n) && e in n.queue && PortOf(e) !in n.slipped && Asking(n.pcbs[PortOf(e)].state)
    requires e.id in n.payloads && !Mentions(n.payloads[e.id], s)
    ensures n.payloads[e.id].Probe? && s !in n.payloads[e.id].questions
  {
    var port := ListedOk(n, e);
    assert ProbingOk(n, port);
  }

  /** An announcement that has addresses stays scheduled when its last service goes, and the port goes on announcing. */
  lemma AddressesStay(n: Net, e: Entry, s: Service)
    requires e.id in n.payloads && PortOf(e) in n.pcbs && !IsProbing(n.pcbs[PortOf(e)].state)
    requires n.payloads[e.id].Answers? && n.payloads[e.id].hosts != {}
    ensures var m := StripPacket(n, e, s);
            && m.queue == n.queue && PortOf(e) in m.pcbs && m.pcbs[PortOf(e)] == n.pcbs[PortOf(e)]
            && e.id in m.payloads && !Mentions(m.payloads[e.id], s) && m.payloads[e.id].hosts == n.payloads[e.id].hosts
  {
    StrippedIsSilent(n.payloads[e.id], s, false);
  }

  // ---------------------------------------------------------------- runs without a confused question

  /** On no port does a service of the same kind stand before `s`. */
  ghost predicate Unmistakable(n: Net, s: Service) {
    forall port <- n.pcbs :: Leads(n.pcbs[port].services, s)
  }

  ghost predicate Careful(n: Net, op: Probing.Op) {
    op.RemoveService? ==> Unmistakable(n, op.service)
  }

  lemma {:induction false} CarefulRemoval(n: Net, todo: seq<Entry>, s: Service)
    requires Unmistakable(n, s)
    ensures StripAll(n, todo, s).slipped == n.slipped
    decreases |todo|
  {
    if !(todo == [] || todo[0].id !in n.payloads || PortOf(todo[0]) !in n.pcbs) {
      RemovedMembers(n.pcbs[PortOf(todo[0])].services, s);
      CarefulRemoval(StripPacket(n, todo[0], s), todo[1..], s);
    }
  }

  lemma {:induction false} ProbeEachSlips(n: Net, jobs: seq<Job>, services: seq<Service>, ip: bool, clear: bool)
    requires n.slipped == {}
    ensures ProbeEach(n, jobs, services, ip, clear).slipped == {}
    decreases |jobs|
  {
    if jobs != [] {
      var p := jobs[0].port;
      var n1 := if p in n.pcbs && p in n.ready
                then StartProbe(if clear then Forgotten(n, p) else n, p, services, ip, jobs[0].jitter) else n;
      ProbeEachSlips(n1, jobs[1..], services, ip, clear);
    }
  }

  lemma CarefulStep(n: Net, op: Probing.Op)
    requires Probing.OpOk(n, op) && Careful(n, op) && n.slipped == {}
    ensures Probing.Apply(n, op).slipped == {}
  {
    match op
    case RemoveService(s) => CarefulRemoval(n, n.queue, s);
    case ProbeAll(jobs, services, ip, clear) => ProbeEachSlips(n, jobs, services, ip, clear);
    case RestartAll(jobs, services) => ProbeEachSlips(Restarted(n), jobs, services, true, true);
    case _ =>
  }

  /** A run that removes no service behind one of its kind. */
  ghost predicate CarefulRuns(n: Net, ops: seq<Probing.Op>, m: Net)
    decreases |ops|
  {
    if ops == [] then m == n
    else Probing.OpOk(n, ops[0]) && Careful(n, ops[0]) && CarefulRuns(Probing.Apply(n, ops[0]), ops[1..], m)
  }

  lemma {:induction false} CarefulRunSlipsNowhere(n: Net, ops: seq<Probing.Op>, m: Net)
    requires CarefulRuns(n, ops, m) && n.slipped == {}
    ensures Probing.Runs(n, ops, m) && m.slipped == {}
    decreases |ops|
  {
    if ops != [] {
      CarefulStep(n, ops[0]);
      CarefulRunSlipsNowhere(Probing.Apply(n, ops[0]), ops[1..], m);
    }
  }

  /** On such runs all three probes asked for every service that is then announced. */
  lemma AskedForEveryService(start: Net, ops: seq<Probing.Op>, n: Net, op: Probing.Op, m: Net, port: Port)
    returns (hosts: set<nat>)
    requires SwitchedOff(start) && CarefulRuns(start, ops, n) && ComesToAnnounce(n, op, m, port)
    ensures port in m.rounds && ProbedFor(m.rounds[port], 3, n.pcbs[port].services, hosts, true)
    ensures |Of(m.queue, port)| == 1 && Of(m.queue, port)[0].id in m.payloads
    ensures Announces(m.payloads[Of(m.queue, port)[0].id], n.pcbs[port], hosts)
  {
    CarefulRunSlipsNowhere(start, ops, n);
    hosts := AnnouncedAfterThreeProbes(n, op, m, port);
  }

  // ---------------------------------------------------------------- a run with a confused question

  /** A port that probes `ss` and the host, with one packet scheduled, after the probes in `round`. */
  function Solo(state: State, ss: seq<Service>, e: Entry, said: map<Id, Payload>, now: nat, round: seq<Sent>,
                slips: bool): Net {
    Alone(PortOf(e), Pcb(state, ss, true, true, 0), [e], said, e.id + 1, now, round, if slips then {PortOf(e)} else {})
  }

  lemma RunsOn(n: Net, op: Probing.Op, ops: seq<Probing.Op>, m: Net)
    requires Probing.OpOk(n, op) && Probing.Runs(Probing.Apply(n, op), ops, m)
    ensures Probing.Runs(n, [op] + ops, m)
  {
    assert ([op] + ops)[1..] == ops;
  }

  lemma Waits(state: State, ss: seq<Service>, e: Entry, said: map<Id, Payload>, now: nat, round: seq<Sent>, ms: nat)
    ensures Probing.Apply(Solo(state, ss, e, said, now, round, true), Probing.Wait(ms))
         == Solo(state, ss, e, said, now + ms, round, true)
  {
  }

  /** A due probe, the first or the second of its round, is sent and scheduled again. */
  lemma Asks(state: State, ss: seq<Service>, e: Entry, said: map<Id, Payload>, now: nat, round: seq<Sent>)
    requires (state.PROBE_1? || state.PROBE_2?) && e.sendAt < now && e.id in said && !e.queued
    ensures HeadDue(Solo(state, ss, e, said, now, round, true))
    ensures Transmit(Solo(state, ss, e, said, now, round, true))
         == Solo(Next(state), ss, e.(sendAt := now + PROBE_GAP), said, now, round + [Sent(now, said[e.id])], true)
  {
    var pcb := Pcb(state, ss, true, true, 0);
    SendsAgain(PortOf(e), pcb, e, said, e.id + 1, now, round, PROBE_GAP, {PortOf(e)});
  }

  /** The third probe is sent, and the announcement scheduled. */
  lemma AsksLast(ss: seq<Service>, e: Entry, said: map<Id, Payload>, now: nat, round: seq<Sent>)
    returns (n: Net, m: Net)
    requires e.sendAt < now && e.id in said
    ensures n == Solo(PROBE_3, ss, e, said, now, round, true) && HeadDue(n) && m == Transmit(n)
    ensures ComesToAnnounce(n, Send, m, PortOf(e))
    ensures PortOf(e) in m.rounds && m.rounds[PortOf(e)] == round + [Sent(now, said[e.id])]
    ensures |m.queue| == 1 && m.queue[0].id in m.payloads && m.payloads[m.queue[0].id] == Announcement(said[e.id])
  {
    n := Solo(PROBE_3, ss, e, said, now, round, true);
    SendsNew(PortOf(e), Pcb(PROBE_3, ss, true, true, 0), e, said, e.id + 1, now, round, PROBE_GAP, {PortOf(e)});
    m := Transmit(n);
  }

  /**
   * Two services of one kind: what the port says when it is enabled, when the other is added, and when the first
   * goes.
   */
  function Said(a: Service, b: Service, step: nat): map<Id, Payload> {
    var first := map[0 := ProbeFor([a], true)];
    if step == 0 then first
    else if step == 1 then first[1 := ProbeFor([b, a], true)]
    else first[1 := ConfusedProbe(a, b)]
  }

  /** It asks for the service that went and offers the one that stays. */
  function ConfusedProbe(a: Service, b: Service): Payload {
    Probe([a], [b], {SELF} + HostsOf([b, a]), AddressHosts([b, a]))
  }

  lemma EnabledWith(start: Net, port: Port, a: Service, b: Service)
    requires start == Net(map[port := Pcb(OFF, [], false, false, 0)], {}, [], map[], 0, 0, true, map[port := []], {})
    ensures SwitchedOff(start)
    ensures Enable(start, port, true, [a], 0) == Solo(PROBE_1, [a], Packet(port, 0, 120), Said(a, b, 0), 0, [], false)
  {
    AloneOnList(Packet(port, 0, 120));
  }

  lemma ClearedAlone(e: Entry)
    ensures Cleared([e], e.iface, e.proto) == []
  {
    var keep := (x: Entry) => !(x.iface == e.iface && x.proto == e.proto);
    assert [e][1..] == [] && Filter([e][1..], keep) == [];
  }

  lemma BothProbed(a: Service, b: Service)
    requires a != b
    ensures AllProbed(Pcb(PROBE_1, [a], true, true, 0), [b]) == [b, a]
  {
    assert [b][1..] == [];
    assert Fresh([b], [a]) == [b];
    assert [b] + [a] == [b, a];
  }

  lemma AddedTo(n: Net, port: Port, a: Service, b: Service)
    requires n == Solo(PROBE_1, [a], Packet(port, 0, 120), Said(a, b, 0), 0, [], false) && a != b
    ensures ProbeEach(n, [Job(port, 0)], [b], false, false)
         == Solo(PROBE_1, [b, a], Packet(port, 1, 120), Said(a, b, 1), 0, [], false)
  {
    ClearedAlone(Packet(port, 0, 120));
    AloneOnList(Packet(port, 1, 120));
    BothProbed(a, b);
    assert StartProbe(n, port, [b], false, 0) ==
        Solo(PROBE_1, [b, a], Packet(port, 1, 120), Said(a, b, 1), 0, [], false);
    assert [Job(port, 0)][1..] == [];
  }

  lemma FirstRemoved(n: Net, port: Port, a: Service, b: Service)
    requires n == Solo(PROBE_1, [b, a], Packet(port, 1, 120), Said(a, b, 1), 0, [], false) && a != b && a.kind == b.kind
    ensures StripAll(n, n.queue, a) == Solo(PROBE_1, [b], Packet(port, 1, 120), Said(a, b, 2), 0, [], true)
  {
    var e := Packet(port, 1, 120);
    assert [b, a][1..] == [a] && [a][1..] == [] && [e][1..] == [];
    assert Removed([a], a) == [] && Removed([b, a], a) == [b] + Removed([a], a);
    assert Unasked([b, a], a.kind) == [a];
    assert [b, a][0].kind == a.kind && [b, a][1] == a && !Leads([b, a], a);
    var m := StripPacket(n, e, a);
    assert Stripped(n.payloads[1], a, true) == ConfusedProbe(a, b);
    assert m.payloads == Said(a, b, 2);
    assert m.pcbs == map[port := Pcb(PROBE_1, [b], true, true, 0)];
    assert m == Solo(PROBE_1, [b], e, Said(a, b, 2), 0, [], true);
  }

  /** Two probes, and the third is due. */
  function ProbesDue(): seq<Probing.Op> {
    [Probing.Wait(121)] + ([Send] + ([Probing.Wait(252)] + ([Send] + ([Probing.Wait(251)] + []))))
  }

  /** The port is enabled with service `a`, a second service `b` is added, and `a` is removed. */
  function Confusion(port: Port, a: Service, b: Service): seq<Probing.Op> {
    [EnablePort(port, true, [a], 0)]
    + ([ProbeAll([Job(port, 0)], [b], false, false)] + ([RemoveService(a)] + ProbesDue()))
  }

  lemma AsksTwice(n: Net, port: Port, b: Service, said: map<Id, Payload>, m: Net)
    requires n == Solo(PROBE_1, [b], Packet(port, 1, 120), said, 0, [], true) && 1 in said
    requires m == Solo(PROBE_3, [b], Packet(port, 1, 623), said, 624, [Sent(121, said[1]), Sent(373, said[1])], true)
    ensures Probing.Runs(n, ProbesDue(), m)
  {
    var e1, e2, e3 := Packet(port, 1, 120), Packet(port, 1, 371), Packet(port, 1, 623);
    var r1, r2 := [Sent(121, said[1])], [Sent(121, said[1]), Sent(373, said[1])];
    assert [] + r1 == r1 && r1 + [Sent(373, said[1])] == r2;
    Waits(PROBE_1, [b], e1, said, 0, [], 121);
    Asks(PROBE_1, [b], e1, said, 121, []);
    Waits(PROBE_2, [b], e2, said, 121, r1, 252);
    Asks(PROBE_2, [b], e2, said, 373, r1);
    Waits(PROBE_3, [b], e3, said, 373, r2, 251);
    RunsOn(Solo(PROBE_3, [b], e3, said, 373, r2, true), Probing.Wait(251), [], m);
    RunsOn(Solo(PROBE_2, [b], e2, said, 373, r1, true), Send, [Probing.Wait(251)] + [], m);
    RunsOn(Solo(PROBE_2, [b], e2, said, 121, r1, true), Probing.Wait(252), [Send] + ([Probing.Wait(251)] + []), m);
    RunsOn(Solo(PROBE_1, [b], e1, said, 121, [], true), Send,
        [Probing.Wait(252)] + ([Send] + ([Probing.Wait(251)] + [])), m);
    RunsOn(n, Probing.Wait(121), [Send] + ([Probing.Wait(252)] + ([Send] + ([Probing.Wait(251)] + []))), m);
  }

  /** The operations lead from start-up to `n`. */
  ghost predicate LeadTo(ops: seq<Probing.Op>, n: Net) {
    exists start: Net :: SwitchedOff(start) && Probing.Runs(start, ops, n)
  }

  lemma LeadOn(port: Port, a: Service, b: Service, n3: Net, ops: seq<Probing.Op>, n: Net)
    requires a != b && a.kind == b.kind
    requires n3 == Solo(PROBE_1, [b], Packet(port, 1, 120), Said(a, b, 2), 0, [], true) && Probing.Runs(n3, ops, n)
    ensures LeadTo([EnablePort(port, true, [a], 0)]
            + ([ProbeAll([Job(port, 0)], [b], false, false)] + ([RemoveService(a)] + ops)), n)
  {
    var start := Net(map[port := Pcb(OFF, [], false, false, 0)], {}, [], map[], 0, 0, true, map[port := []], {});
    EnabledWith(start, port, a, b);
    var n1 := Solo(PROBE_1, [a], Packet(port, 0, 120), Said(a, b, 0), 0, [], false);
    AddedTo(n1, port, a, b);
    var n2 := Solo(PROBE_1, [b, a], Packet(port, 1, 120), Said(a, b, 1), 0, [], false);
    FirstRemoved(n2, port, a, b);
    RunsOn(n2, RemoveService(a), ops, n);
    RunsOn(n1, ProbeAll([Job(port, 0)], [b], false, false), [RemoveService(a)] + ops, n);
    RunsOn(start, EnablePort(port, true, [a], 0),
        [ProbeAll([Job(port, 0)], [b], false, false)] + ([RemoveService(a)] + ops), n);
  }

  /**
   * A port is enabled with service `a`, a second service `b` of its kind is added, `a` is removed. Whatever
   * the two are, `b` is then announced although no probe asked for it: all three asked for `a`.
   */
  lemma AnnouncedUnasked(port: Port, a: Service, b: Service, probe: Payload) returns (n: Net, m: Net)
    requires a != b && a.kind == b.kind && probe == ConfusedProbe(a, b)
    ensures LeadTo(Confusion(port, a, b), n) && ComesToAnnounce(n, Send, m, port)
    ensures port in m.rounds && m.rounds[port] == [Sent(121, probe), Sent(373, probe), Sent(624, probe)]
    ensures |m.queue| == 1 && m.queue[0].id in m.payloads && m.payloads[m.queue[0].id] == Announcement(probe)
  {
    var said := Said(a, b, 2);
    var n3 := Solo(PROBE_1, [b], Packet(port, 1, 120), said, 0, [], true);
    n, m := AsksLast([b], Packet(port, 1, 623), said, 624, [Sent(121, said[1]), Sent(373, said[1])]);
    AsksTwice(n3, port, b, said, n);
    LeadOn(port, a, b, n3, ProbesDue(), n);
  }
}
