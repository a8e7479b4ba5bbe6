/** Responders with a single port, for the runs written out step by step. */
module SoloPort {
  import opened TxProtocol
  import opened Probing

  /** One ready port, with what is scheduled for it and its round. */
  function Alone(port: Port, pcb: Pcb, queue: seq<Entry>, said: map<Id, Payload>, next: Id, now: nat,
                 round: seq<Sent>, slipped: set<Port>): Net {
    Net(map[port := pcb], {port}, queue, said, next, now, true, map[port := round], slipped)
  }

  function Packet(port: Port, id: Id, at: nat): Entry {
    Entry(id, at, false, port.iface, port.proto)
  }

  lemma AloneOnList(e: Entry)
    ensures Insert([], e) == [e]
  {
  }

  lemma SendsAgain(port: Port, pcb: Pcb, e: Entry, said: map<Id, Payload>, next: Id, now: nat, round: seq<Sent>,
                   ms: nat, slipped: set<Port>)
    requires PortOf(e) == port && e.sendAt < now && e.id in said && !e.queued && Fate(pcb.state, next) == Again(ms)
    ensures HeadDue(Alone(port, pcb, [e], said, next, now, round, slipped))
    ensures Transmit(Alone(port, pcb, [e], said, next, now, round, slipped)) ==
            Alone(port, Turned(pcb), [e.(sendAt := now + ms)], said, next, now, round + [Sent(now, said[e.id])],
                slipped)
  {
    assert [e][1..] == [];
    AloneOnList(e.(sendAt := now + ms));
  }

  lemma SendsNew(port: Port, pcb: Pcb, e: Entry, said: map<Id, Payload>, next: Id, now: nat, round: seq<Sent>, ms: nat,
                 slipped: set<Port>)
    requires PortOf(e) == port && e.sendAt < now && e.id in said && Fate(pcb.state, next) == Replace(next, ms)
    ensures HeadDue(Alone(port, pcb, [e], said, next, now, round, slipped))
    ensures Transmit(Alone(port, pcb, [e], said, next, now, round, slipped)) ==
            Alone(port, Turned(pcb), [Packet(port, next, now + ms)], said[next := Announcement(said[e.id])], next + 1,
                  now, round + [Sent(now, said[e.id])], slipped)
  {
    assert [e][1..] == [];
    AloneOnList(Packet(port, next, now + ms));
  }

  lemma SendsLast(port: Port, pcb: Pcb, e: Entry, said: map<Id, Payload>, next: Id, now: nat, round: seq<Sent>,
                  slipped: set<Port>)
    requires PortOf(e) == port && e.sendAt < now && e.id in said && Fate(pcb.state, next) == Drop && !pcb.state.OFF?
    ensures HeadDue(Alone(port, pcb, [e], said, next, now, round, slipped))
    ensures Transmit(Alone(port, pcb, [e], said, next, now, round, slipped)) ==
            Alone(port, Turned(pcb), [], said, next, now, round + [Sent(now, said[e.id])], slipped)
  {
    assert [e][1..] == [];
  }
}
