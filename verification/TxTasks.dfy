/**
 * The timer task and the service task at work on one list in memory: every interleaving of their steps is a run
 * of the protocol, so the list and the actions stay consistent.
 */
module TxTasks {
  import opened Basics
  import opened TxProtocol
  import opened TxQueue

  /** The consistent states. */
  ghost function Safe(): iset<Shared> {
    iset s: Shared | Consistent(s)
  }

  lemma StepSafe(s: Shared, op: Op) returns (r: Shared)
    requires s in Safe() && OpOk(s, op)
    ensures r == Apply(s, op) && r in Safe()
  {
    r := StepConsistent(s, op);
  }

  /** Sets of packets that their identities, all among `used`, tell apart. */
  ghost predicate ToldApart(ps: set<Packet>, used: set<Id>) {
    (forall p <- ps :: p.id in used) && forall p, r :: p in ps && r in ps && p.id == r.id ==> p == r
  }

  lemma OneMore(ps: set<Packet>, used: set<Id>, p: Packet)
    requires ToldApart(ps, used) && p.id !in used
    ensures ToldApart(ps + {p}, used + {p.id})
  {
  }

  ghost predicate Among(s: seq<Packet>, ps: set<Packet>) {
    forall p <- s :: p in ps
  }

  class Tasks {
    const list: Queue
    /** The tick count. */
    var now: nat
    /** What the list, the actions and the clock stand for. */
    ghost var shared: Shared
    /** All packets that were ever scheduled. */
    ghost var known: set<Packet>

    ghost predicate Valid()
      reads this, list, list.nodes
    {
      && list.Valid() && shared.queue == list.entries && shared.actions == ActionIds(list.actions) && shared.now == now
      && shared in Safe() && ToldApart(known, shared.used) && Among(list.nodes, known) && Among(list.actions, known)
    }

    constructor ()
      ensures Valid() && fresh(list) && shared == Shared([], [], 0, {}, map[], 0)
    {
      list := new Queue();
      now, shared, known := 0, Shared([], [], 0, {}, map[], 0), {};
      assert Consistent(Shared([], [], 0, {}, map[], 0));
    }

    /** `mdns_priv_send_after` on a packet that is not listed; `op` is the step of the protocol it belongs to. */
    method Put(p: Packet, ms: nat, ghost s: Shared)
      requires list.Valid() && p !in list.nodes && now + ms < HALF && p in known && !p.queued
      requires Among(list.nodes, known) && Among(list.actions, known) && ToldApart(known, s.used)
      requires s in Safe() && s.actions == ActionIds(list.actions) && s.now == now
      requires s.queue == Insert(list.entries, Entry(p.id, now + ms, false, p.iface, p.proto))
      modifies this`shared, list, list.nodes, p
      ensures Valid() && shared == s
    {
      assert U32(now + ms) == now + ms;
      assert p.Value().(sendAt := now + ms) == Entry(p.id, now + ms, false, p.iface, p.proto);
      list.SendAfter(p, ms, now);
      shared := s;
    }

    /** The same for a packet that is made for it. */
    method PutNew(id: Id, iface: nat, proto: nat, ms: nat, ghost used: set<Id>, ghost s: Shared)
      requires list.Valid() && now + ms < HALF && id !in used && s.used == used + {id}
      requires Among(list.nodes, known) && Among(list.actions, known) && ToldApart(known, used)
      requires s in Safe() && s.actions == ActionIds(list.actions) && s.now == now
      requires s.queue == Insert(list.entries, Entry(id, now + ms, false, iface, proto))
      modifies this`shared, this`known, list, list.nodes
      ensures Valid() && shared == s
      ensures forall p <- known :: p in old(known) || fresh(p)
    {
      var p := new Packet(id, iface, proto);
      OneMore(known, used, p);
      known := known + {p};
      Put(p, ms, s);
    }

    /** A new packet is made and scheduled. */
    method Schedule(id: Id, iface: nat, proto: nat, ms: nat)
      requires Valid() && id !in shared.used && now + ms < HALF
      modifies this`shared, this`known, list, list.nodes
      ensures Valid() && shared == Apply(old(shared), Op.Schedule(id, iface, proto, ms))
      ensures forall p <- known :: p in old(known) || fresh(p)
    {
      ghost var s := StepSafe(shared, Op.Schedule(id, iface, proto, ms));
      AfterSchedule(shared, id, iface, proto, ms, s);
      PutNew(id, iface, proto, ms, shared.used, s);
    }

    method Clear(iface: nat, proto: nat)
      requires Valid()
      modifies this`shared, list, list.nodes
      ensures Valid() && shared == Apply(old(shared), Op.Clear(iface, proto))
      ensures forall p <- list.nodes :: p in old(list.nodes) && !(p.iface == iface && p.proto == proto)
      ensures forall p <- old(list.nodes) :: p in list.nodes || (p.iface == iface && p.proto == proto)
    {
      ghost var s := StepSafe(shared, Op.Clear(iface, proto));
      ghost var q, was := list.entries, list.nodes;
      list.ClearIf(iface, proto);
      shared := s;
      FilteredPackets(q, was, list.entries, list.nodes, known, s.used,
                      (e: Entry) => !(e.iface == iface && e.proto == proto));
    }

    method ClearAll()
      requires Valid()
      modifies this`shared, list
      ensures Valid() && shared == Apply(old(shared), Op.ClearAll) && list.nodes == []
    {
      ghost var s := StepSafe(shared, Op.ClearAll);
      list.ClearAll();
      shared := s;
    }

    method Detach(id: Id)
      requires Valid()
      modifies this`shared, list, list.nodes
      ensures Valid() && shared == Apply(old(shared), Op.Detach(id))
      ensures forall p <- list.nodes :: p in old(list.nodes) && p.id != id
      ensures forall p <- old(list.nodes) :: p in list.nodes || p.id == id
    {
      ghost var s := StepSafe(shared, Op.Detach(id));
      ghost var q, was := list.entries, list.nodes;
      SafeIds(shared);
      list.Detach(id);
      shared := s;
      FilteredPackets(q, was, list.entries, list.nodes, known, s.used, (e: Entry) => e.id != id);
    }

    /** The timer task runs. */
    method Timer(delays: seq<nat>)
      requires Valid() && OpOk(shared, Op.Timer(delays))
      modifies this`shared, this`now, list, list.nodes
      ensures Valid() && shared == Apply(old(shared), Op.Timer(delays))
    {
      ghost var s := StepSafe(shared, Op.Timer(delays));
      AfterTimer(shared, delays, s);
      now := list.SendPackets(now, delays);
      shared := s;
    }

    /** The service task runs the oldest action, if there is one; `v` is what handling the packet leads to. */
    method RunAction(v: Verdict)
      requires Valid() && OpOk(shared, Op.RunAction(v))
      modifies this`shared, this`known, list, list.nodes
      ensures Valid() && shared == Apply(old(shared), Op.RunAction(v))
      ensures forall p <- known :: p in old(known) || fresh(p)
    {
      if list.actions == [] {
        return;
      }
      ghost var used := shared.used;
      ghost var s := StepSafe(shared, Op.RunAction(v));
      AfterAction(shared, v, s);
      ReadyMeansHead(shared, list.nodes, list.actions, known, used);
      TakeOldest(v, used, s);
    }

    method TakeOldest(v: Verdict, ghost used: set<Id>, ghost s: Shared)
      requires list.Valid() && list.actions != []
      requires Among(list.nodes, known) && Among(list.actions, known) && ToldApart(known, used)
      requires s in Safe() && s.actions == ActionIds(list.actions)[1..] && s.now == now
      requires v.Replace? ==> v.id !in used
      requires !v.Drop? ==> now + v.ms < HALF
      requires var ready := list.nodes != [] && list.nodes[0] == list.actions[0] && list.entries[0].queued;
               && (!ready ==> s.queue == list.entries && s.used == used)
               && (ready ==>
                     var e := list.entries[0];
                     e.id in used && Leaves(list.entries[1..], used, Entry(e.id, 0, false, e.iface, e.proto), v, s))
      modifies this`shared, this`known, list, list.nodes
      ensures Valid() && shared == s
      ensures forall p <- known :: p in old(known) || fresh(p)
    {
      var sent := list.RunAction();
      if sent == null {
        shared := s;
      } else {
        Handle(sent, v, used, s);
      }
    }

    /** What becomes of a packet taken off the list. */
    method Handle(sent: Packet, v: Verdict, ghost used: set<Id>, ghost s: Shared)
      requires list.Valid() && sent !in list.nodes && sent in known && !sent.queued && sent.id in used
      requires Among(list.nodes, known) && Among(list.actions, known) && ToldApart(known, used)
      requires s in Safe() && s.actions == ActionIds(list.actions) && s.now == now
      requires v.Replace? ==> v.id !in used
      requires !v.Drop? ==> now + v.ms < HALF
      requires Leaves(list.entries, used, Entry(sent.id, 0, false, sent.iface, sent.proto), v, s)
      modifies this`shared, this`known, list, list.nodes, sent
      ensures Valid() && shared == s
      ensures forall p <- known :: p in old(known) || fresh(p)
    {
      match v {
        case Drop => shared := s;
        case Again(ms) => Put(sent, ms, s);
        case Replace(id, ms) => PutNew(id, sent.iface, sent.proto, ms, used, s);
      }
    }

    method Wait(ms: nat)
      requires Valid() && now + ms < HALF
      modifies this`shared, this`now
      ensures Valid() && shared == Apply(old(shared), Op.Wait(ms))
    {
      ghost var s := StepSafe(shared, Op.Wait(ms));
      now := now + ms;
      shared := s;
    }

    /** One step of either task. */
    method Perform(op: Op)
      requires Valid() && OpOk(shared, op)
      modifies this`shared, this`known, this`now, list, list.nodes
      ensures Valid() && shared == Apply(old(shared), op)
      ensures forall p <- known :: p in old(known) || fresh(p)
    {
      match op {
        case Schedule(id, iface, proto, ms) => Schedule(id, iface, proto, ms);
        case Clear(iface, proto) => Clear(iface, proto);
        case ClearAll => ClearAll();
        case Detach(id) => Detach(id);
        case Timer(delays) => Timer(delays);
        case RunAction(v) => RunAction(v);
        case Wait(ms) => Wait(ms);
      }
    }

    /**
     * The two tasks' steps in any order. Afterwards the list and the actions are consistent, and a packet that is
     * still listed and flagged when its action comes up is the head of the list.
     */
    method Serve(ops: seq<Op>)
      requires Valid() && AllOk(shared, ops)
      modifies this`shared, this`known, this`now, list, known
      ensures Valid() && shared == Run(old(shared), ops) && Consistent(shared)
      ensures list.actions != [] && list.actions[0] in list.nodes && list.actions[0].queued ==>
              list.head == list.actions[0]
    {
      ghost var s := shared;
      for i := 0 to |ops|
        invariant Valid() && Run(shared, ops[i..]) == Run(s, ops) && AllOk(shared, ops[i..])
        invariant forall p <- known :: p in old(known) || fresh(p)
      {
        assert ops[i..][0] == ops[i] && ops[i..][1..] == ops[i + 1..];
        Perform(ops[i]);
      }
      assert ops[|ops|..] == [];
      HeadIsNext();
    }

    lemma HeadIsNext()
      requires Valid()
      ensures list.actions != [] && list.actions[0] in list.nodes && list.actions[0].queued ==>
              list.head == list.actions[0]
    {
      if list.actions != [] && list.actions[0] in list.nodes && list.actions[0].queued {
        var i :| 0 <= i < |list.nodes| && list.nodes[i] == list.actions[0];
        assert shared.queue[i] == list.nodes[i].Value();
        QueuedAt(shared.queue, i);
        QueuedPacketIsAtHead(shared);
        ReadyMeansHead(shared, list.nodes, list.actions, known, shared.used);
      }
    }
  }

  /** The packets `ps`, as they stand for the entries `q`. */
  ghost predicate StandFor(ps: seq<Packet>, q: seq<Entry>, known: set<Packet>) {
    && |ps| == |q| && Among(ps, known)
    && forall i :: 0 <= i < |ps| ==> q[i].id == ps[i].id && q[i].iface == ps[i].iface && q[i].proto == ps[i].proto
  }

  /** Where identities tell packets apart, filtering the entries keeps exactly the packets of the entries kept. */
  lemma FilteredPackets(q: seq<Entry>, was: seq<Packet>, r: seq<Entry>, nodes: seq<Packet>, known: set<Packet>,
                        used: set<Id>, keep: Entry -> bool)
    requires r == Filter(q, keep) && StandFor(was, q, known) && StandFor(nodes, r, known) && ToldApart(known, used)
    ensures forall p <- nodes :: exists i :: 0 <= i < |was| && was[i] == p && keep(q[i])
    ensures forall i :: 0 <= i < |was| && keep(q[i]) ==> was[i] in nodes
  {
    var f := FilterPicks(q, keep);
    forall j | 0 <= j < |nodes|
      ensures nodes[j] == was[f[j]] && keep(q[f[j]])
    {
      assert f[j] in f && r[j] == q[f[j]];
      assert nodes[j] in known && was[f[j]] in known;
    }
    forall i | 0 <= i < |was| && keep(q[i])
      ensures was[i] in nodes
    {
      var j :| 0 <= j < |f| && f[j] == i;
      assert nodes[j] == was[i];
    }
  }

  lemma AfterSchedule(s: Shared, id: Id, iface: nat, proto: nat, ms: nat, r: Shared)
    requires r == Apply(s, Op.Schedule(id, iface, proto, ms))
    ensures r.queue == Insert(s.queue, Entry(id, s.now + ms, false, iface, proto))
    ensures r.actions == s.actions && r.now == s.now && r.used == s.used + {id}
  {
  }

  lemma SafeIds(s: Shared)
    requires s in Safe()
    ensures DistinctIds(s.queue)
  {
  }

  lemma AfterTimer(s: Shared, delays: seq<nat>, r: Shared)
    requires r == Apply(s, Op.Timer(delays))
    ensures var pass := TimerPass(s.queue, s.now, delays);
            r.queue == pass.0 && r.actions == s.actions + pass.1 && r.now == pass.2 && r.used == s.used
  {
  }

  /** `s` is what handling packet `e` leads to when the list without it is `q`. */
  ghost predicate Leaves(q: seq<Entry>, used: set<Id>, e: Entry, v: Verdict, s: Shared) {
    match v
    case Drop => s.queue == q && s.used == used
    case Again(ms) => s.queue == Insert(q, Entry(e.id, s.now + ms, false, e.iface, e.proto)) && s.used == used
    case Replace(id, ms) =>
      s.queue == Insert(q, Entry(id, s.now + ms, false, e.iface, e.proto)) && s.used == used + {id}
  }

  lemma AfterAction(s: Shared, v: Verdict, r: Shared)
    requires s in Safe() && s.actions != [] && r == Apply(s, Op.RunAction(v))
    ensures r.actions == s.actions[1..] && r.now == s.now
    ensures !Ready(s) ==> r.queue == s.queue && r.used == s.used
    ensures Ready(s) ==>
              var e := s.queue[0];
              e.id in s.used && Leaves(s.queue[1..], s.used, Entry(e.id, 0, false, e.iface, e.proto), v, r)
  {
    if Ready(s) {
      assert EntryOk(s, s.queue[0]);
    }
  }

  /** Where identities are unique, the packet the action is about is at the head if its identity is. */
  lemma ReadyMeansHead(s: Shared, nodes: seq<Packet>, actions: seq<Packet>, known: set<Packet>, used: set<Id>)
    requires s.actions == ActionIds(actions) && |s.queue| == |nodes|
    requires forall i :: 0 <= i < |nodes| ==> s.queue[i].id == nodes[i].id
    requires ToldApart(known, used) && Among(nodes, known) && Among(actions, known) && actions != []
    ensures Ready(s) <==> nodes != [] && nodes[0] == actions[0] && s.queue[0].queued
  {
    if nodes != [] {
      assert nodes[0] in known && actions[0] in known;
    }
  }
}
